/** The live match session and the three use cases that close a turn. The queue, the scheduler and
    the dice are not modelled: what they decide (whether an action opens, whether any action can
    still pay, who is hit for how much) arrives as a parameter of the command. */
module Session {
  import opened Prelude
  import opened Store

  /** current is the round's last turn, open or closed; turns counts the turns opened in the round. */
  datatype SessionState = SessionState(
    scene: Id, round: Id, mode: Mode, turns: nat, current: Option<Id>, currentOpen: bool,
    scenePersisted: bool, roundPersisted: bool, sheets: map<Id, Bars>, nextId: Id)
  {
    predicate HasOpenTurn() { current.Some? && currentOpen }

    function SceneNow(): SceneSnap { SceneSnap(scene, None) }

    function RoundNow(): RoundSnap { RoundSnap(round, mode, None) }
  }

  /** What one character takes from a settled resolution. */
  datatype Hit = Hit(character: Id, damage: int)

  /** What the scheduler answers when the master asks for the next turn. */
  datatype Pick = Opens | NoneCanPay | OpenFails

  datatype Transition = Transition(closed: Option<Id>, started: Option<Id>, damaged: seq<Id>, noActionCanPay: bool,
    failed: bool)

  // ---------------------------------------------------------------- damage

  predicate Lands(sheets: map<Id, Bars>, h: Hit) {
    h.damage > 0 && h.character in sheets && sheets[h.character].health.Some?
  }

  function Decrease(b: Bar, damage: int): Bar {
    b.(cur := if b.cur - damage < b.min then b.min else b.cur - damage)
  }

  function ApplyHits(sheets: map<Id, Bars>, hits: seq<Hit>): map<Id, Bars> {
    if hits == [] then sheets
    else
      var before := ApplyHits(sheets, hits[..|hits| - 1]);
      var h := hits[|hits| - 1];
      if Lands(before, h)
      then
        var bars := before[h.character];
        before[h.character := bars.(health := Some(Decrease(bars.health.value, h.damage)))]
      else before
  }

  function Damaged(sheets: map<Id, Bars>, hits: seq<Hit>): seq<Id> {
    if hits == [] then []
    else
      var h := hits[|hits| - 1];
      Damaged(sheets, hits[..|hits| - 1]) +
      if Lands(ApplyHits(sheets, hits[..|hits| - 1]), h) then [h.character] else []
  }

  // ---------------------------------------------------------------- what each verb leaves behind

  function Closed(s: SessionState, hits: seq<Hit>): SessionState {
    if s.HasOpenTurn() then s.(currentOpen := false, sheets := ApplyHits(s.sheets, hits)) else s
  }

  function OpenedOn(s: SessionState): SessionState {
    s.(turns := s.turns + 1, current := Some(s.nextId), currentOpen := true, nextId := s.nextId + 1)
  }

  function ClosedTurn(s: SessionState): Option<Id> {
    if s.HasOpenTurn() then s.current else None
  }

  function DamagedBy(s: SessionState, hits: seq<Hit>): seq<Id> {
    if s.HasOpenTurn() then Damaged(s.sheets, hits) else []
  }

  /** Close whatever is open, then open, end or fail. Only a Race round can run out of payers. */
  function Next(s: SessionState, pick: Pick, hits: seq<Hit>): (SessionState, Transition) {
    var closed := Closed(s, hits);
    var tr := Transition(ClosedTurn(s), None, DamagedBy(s, hits), false, false);
    if pick == Opens then (OpenedOn(closed), tr.(started := Some(s.nextId)))
    else if pick == NoneCanPay && s.mode == Race then (closed, tr.(noActionCanPay := true))
    else (closed, tr.(failed := true))
  }

  /** The round's end and its successor's birth, in memory. */
  function RoundEnded(s: SessionState): SessionState {
    s.(round := s.nextId, turns := 0, current := None, currentOpen := false, roundPersisted := false,
      nextId := s.nextId + 1)
  }

  function SceneChanged(s: SessionState): SessionState {
    s.(scene := s.nextId, round := s.nextId + 1, mode := Free, turns := 0, current := None, currentOpen := false,
       scenePersisted := false, roundPersisted := false, nextId := s.nextId + 2)
  }

  function MarkedPersisted(s: SessionState, written: Id): SessionState {
    if s.round == written then s.(scenePersisted := true, roundPersisted := true) else s
  }

  // ---------------------------------------------------------------- use-case results

  /** err travels beside the result: a half-success carries both. */
  datatype NextResult = NextResult(closedTurn: Option<Id>, openedTurn: Option<Id>, damaged: seq<Id>,
    closedRound: Option<RoundSnap>)

  /** The outcome of open_next_action. canClose says whether the use case was given the round-close
      path; at is the finish a round that ends now gets. */
  function OpenNextOutcome(s: SessionState, pick: Pick, hits: seq<Hit>, canClose: bool, at: Time)
    : (SessionState, Option<NextResult>, bool)
  {
    var (s1, tr) := Next(s, pick, hits);
    var res := NextResult(tr.closed, tr.started, tr.damaged, None);
    if tr.noActionCanPay then
      if tr.closed.None? && s1.turns == 0 then (s1, None, true)
      else if !canClose then (s1, Some(res), false)
      else (RoundEnded(s1), Some(res.(closedRound := Some(RoundSnap(s1.round, s1.mode, Some(at))))), false)
    else if tr.failed then (s1, if tr.closed.Some? then Some(res) else None, true)
    else (s1, Some(res), false)
  }

  /** The outcome of pull_action. blocked: the action is stacked on one still queued, and nothing
      closes; otherwise the same close-then-open with no price gate. */
  function PullOutcome(s: SessionState, blocked: bool, found: bool, hits: seq<Hit>)
    : (SessionState, Option<NextResult>, bool)
  {
    if blocked then (s, None, true)
    else
      var (s1, tr) := Next(s, if found then Opens else OpenFails, hits);
      var res := NextResult(tr.closed, tr.started, tr.damaged, None);
      if tr.failed then (s1, if tr.closed.Some? then Some(res) else None, true) else (s1, Some(res), false)
  }

  datatype CloseResult = CloseResult(closedTurn: Option<Id>, damaged: seq<Id>, refused: bool)

  /** The outcome of close_turn. awaiting: reactions a player sent still wait for the floor. */
  function CloseOutcome(s: SessionState, confirm: bool, awaiting: bool, hits: seq<Hit>)
    : (SessionState, Option<CloseResult>, bool)
  {
    if !confirm && awaiting && s.HasOpenTurn() then (s, Some(CloseResult(None, [], true)), false)
    else if !s.HasOpenTurn() then (s, None, true)
    else (Closed(s, hits), Some(CloseResult(s.current, Damaged(s.sheets, hits), false)), false)
  }

  // ---------------------------------------------------------------- the session object

  class MatchSession {
    var scene: Id
    var round: Id
    var mode: Mode
    var turns: nat
    var current: Option<Id>
    var currentOpen: bool
    var scenePersisted: bool
    var roundPersisted: bool
    var sheets: map<Id, Bars>
    var nextId: Id

    function State(): SessionState
      reads this
    {
      SessionState(scene, round, mode, turns, current, currentOpen, scenePersisted, roundPersisted, sheets, nextId)
    }

    constructor (s: SessionState)
      ensures State() == s
    {
      scene, round, mode, turns := s.scene, s.round, s.mode, s.turns;
      current, currentOpen := s.current, s.currentOpen;
      scenePersisted, roundPersisted := s.scenePersisted, s.roundPersisted;
      sheets, nextId := s.sheets, s.nextId;
    }

    method MarkRoundPersisted()
      modifies this
      ensures State() == old(State()).(scenePersisted := true, roundPersisted := true)
    {
      scenePersisted := true;
      roundPersisted := true;
    }

    /** Applies a settled resolution once; who was really hurt, in order. */
    method ApplyResolution(hits: seq<Hit>) returns (damaged: seq<Id>)
      modifies this
      ensures State() == old(State()).(sheets := ApplyHits(old(sheets), hits))
      ensures damaged == Damaged(old(sheets), hits)
    {
      damaged := [];
      var i := 0;
      while i < |hits|
        invariant 0 <= i <= |hits|
        invariant State() == old(State()).(sheets := ApplyHits(old(sheets), hits[..i]))
        invariant damaged == Damaged(old(sheets), hits[..i])
      {
        assert hits[..i + 1][..i] == hits[..i];
        var h := hits[i];
        if Lands(sheets, h) {
          var bars := sheets[h.character];
          sheets := sheets[h.character := bars.(health := Some(Decrease(bars.health.value, h.damage)))];
          damaged := damaged + [h.character];
        }
        i := i + 1;
      }
      assert hits[..|hits|] == hits;
    }

    method CloseOpenTurn(hits: seq<Hit>) returns (closed: Option<Id>, damaged: seq<Id>)
      modifies this
      ensures State() == Closed(old(State()), hits)
      ensures closed == ClosedTurn(old(State())) && damaged == DamagedBy(old(State()), hits)
    {
      if current.None? || !currentOpen { return None, []; }
      currentOpen := false;
      damaged := ApplyResolution(hits);
      closed := current;
    }

    method OpenNextAction(pick: Pick, hits: seq<Hit>) returns (tr: Transition)
      modifies this
      ensures (State(), tr) == Next(old(State()), pick, hits)
    {
      var closed, damaged := CloseOpenTurn(hits);
      tr := Transition(closed, None, damaged, false, false);
      if pick == Opens {
        tr := tr.(started := Some(nextId));
        turns, current, currentOpen, nextId := turns + 1, Some(nextId), true, nextId + 1;
      } else if pick == NoneCanPay && mode == Race {
        tr := tr.(noActionCanPay := true);
      } else {
        tr := tr.(failed := true);
      }
    }

    method CloseRound(at: Time) returns (closed: Option<RoundSnap>)
      modifies this
      ensures old(State()).HasOpenTurn() ==> closed == None && State() == old(State())
      ensures !old(State()).HasOpenTurn() ==>
        && closed == Some(RoundSnap(old(round), old(mode), Some(at))) && State() == RoundEnded(old(State()))
        && round == old(nextId) && turns == 0 && current.None? && !roundPersisted && mode == old(mode)
    {
      if current.Some? && currentOpen { return None; }
      closed := Some(RoundSnap(round, mode, Some(at)));
      round, turns, current, currentOpen, nextId := nextId, 0, None, false, nextId + 1;
      roundPersisted := false;
    }

    method ChangeScene(at: Time) returns (ended: Option<RoundEnd>)
      modifies this
      ensures old(State()).HasOpenTurn() ==> ended == None && State() == old(State())
      ensures !old(State()).HasOpenTurn() ==>
        && ended == Some(RoundEnd(SceneSnap(old(scene), Some(at)), RoundSnap(old(round), old(mode), Some(at))))
        && State() == SceneChanged(old(State()))
        && scene == old(nextId) && round > scene && turns == 0 && current.None? && mode == Free
        && !scenePersisted && !roundPersisted && sheets == old(sheets)
    {
      if current.Some? && currentOpen { return None; }
      ended := Some(RoundEnd(SceneSnap(scene, Some(at)), RoundSnap(round, mode, Some(at))));
      scene, round, nextId := nextId, nextId + 1, nextId + 2;
      mode, turns, current, currentOpen := Free, 0, None, false;
      scenePersisted, roundPersisted := false, false;
    }

    method SetRoundMode(m: Mode)
      modifies this
      ensures State() == old(State()).(mode := m)
    {
      mode := m;
    }

    // -------------------------------------------------------------- use cases

    method ExecuteOpenNext(pick: Pick, hits: seq<Hit>, canClose: bool, at: Time)
      returns (res: Option<NextResult>, err: bool)
      modifies this
      ensures (State(), res, err) == OpenNextOutcome(old(State()), pick, hits, canClose, at)
    {
      var tr := OpenNextAction(pick, hits);
      res := Some(NextResult(tr.closed, tr.started, tr.damaged, None));
      if tr.noActionCanPay {
        if tr.closed.None? && turns == 0 { return None, true; }
        if !canClose { return res, false; }
        var closed := CloseRound(at);
        if closed.None? { return res, false; }
        return Some(res.value.(closedRound := closed)), false;
      }
      if tr.failed {
        if tr.closed.Some? { return res, true; }
        return None, true;
      }
      return res, false;
    }

    method ExecutePull(blocked: bool, found: bool, hits: seq<Hit>) returns (res: Option<NextResult>, err: bool)
      modifies this
      ensures (State(), res, err) == PullOutcome(old(State()), blocked, found, hits)
    {
      if blocked { return None, true; }
      var tr := OpenNextAction(if found then Opens else OpenFails, hits);
      res := Some(NextResult(tr.closed, tr.started, tr.damaged, None));
      if tr.failed {
        if tr.closed.Some? { return res, true; }
        return None, true;
      }
      return res, false;
    }

    method ExecuteClose(confirm: bool, awaiting: bool, hits: seq<Hit>) returns (res: Option<CloseResult>, err: bool)
      modifies this
      ensures (State(), res, err) == CloseOutcome(old(State()), confirm, awaiting, hits)
    {
      if !confirm && awaiting && current.Some? && currentOpen {
        return Some(CloseResult(None, [], true)), false;
      }
      if current.None? || !currentOpen { return None, true; }
      var closed, damaged := CloseOpenTurn(hits);
      return Some(CloseResult(closed, damaged, false)), false;
    }
  }

  // ---------------------------------------------------------------- what the use cases promise

  /** A turn that open_next_action closed is always handed to the caller, error or not, so it can be
      written; and a round it ends had at least one turn. */
  lemma OpenNextNeverDropsAClosedTurn(s: SessionState, pick: Pick, hits: seq<Hit>, canClose: bool, at: Time)
    requires s.round < s.nextId && (s.HasOpenTurn() ==> s.turns > 0)
    ensures var (s', res, err) := OpenNextOutcome(s, pick, hits, canClose, at);
      && (s.HasOpenTurn() ==>
            res.Some? && res.value.closedTurn == s.current && res.value.damaged == Damaged(s.sheets, hits))
      && (!s.HasOpenTurn() && res.Some? ==> res.value.closedTurn.None? && res.value.damaged == [])
      && (s'.round != s.round <==> res.Some? && res.value.closedRound.Some?)
      && (res.Some? && res.value.closedRound.Some? ==>
            s.turns > 0 && !err && res.value.openedTurn.None? && res.value.closedRound.value.id == s.round)
      && (s'.HasOpenTurn() <==> res.Some? && res.value.openedTurn.Some? && res.value.openedTurn == s'.current)
  {
  }

  /** What a verb does to the rounds in memory: nothing, or the active one ends and its successor is
      the active one. */
  predicate RoundsMoved(s: SessionState, res: Option<NextResult>, err: bool, s': SessionState, at: Time) {
    && s'.scene == s.scene && s'.scenePersisted == s.scenePersisted && s'.mode == s.mode && s.nextId <= s'.nextId
    && (err && res.Some? ==> res.value.closedRound.None?)
    && if res.Some? && res.value.closedRound.Some?
       then res.value.closedRound.value == RoundSnap(s.round, s.mode, Some(at))
         && s'.round == s.nextId && !s'.roundPersisted && s'.nextId == s.nextId + 1
       else s'.round == s.round && s'.roundPersisted == s.roundPersisted
  }

  lemma OpenNextMovesRounds(s: SessionState, pick: Pick, hits: seq<Hit>, canClose: bool, at: Time)
    ensures var (s', res, err) := OpenNextOutcome(s, pick, hits, canClose, at); RoundsMoved(s, res, err, s', at)
  {
  }

  /** What a verb that was not refused does to the turns: the open one closes with its damage and is handed
      to the caller; a new one may open, under a fresh id. */
  predicate TurnsMoved(s: SessionState, hits: seq<Hit>, res: Option<NextResult>, err: bool, s': SessionState) {
    var opens := res.Some? && res.value.openedTurn.Some?;
    && (!err ==> res.Some?)
    && s.nextId <= s'.nextId && (opens ==> s.nextId < s'.nextId)
    && s'.sheets == (if s.HasOpenTurn() then ApplyHits(s.sheets, hits) else s.sheets)
    && s'.HasOpenTurn() == opens
    && (opens ==>
          && !err && res.value.closedRound.None?
          && res.value.openedTurn == Some(s.nextId) && s'.current == Some(s.nextId))
    && (s.HasOpenTurn() ==>
          res.Some? && res.value.closedTurn == s.current && res.value.damaged == Damaged(s.sheets, hits))
    && (!s.HasOpenTurn() && res.Some? ==> res.value.closedTurn.None? && res.value.damaged == [])
    && (res.Some? && res.value.closedRound.Some? ==> res.value.closedRound.value.finished.Some?)
  }

  lemma OpenNextMovesTurns(s: SessionState, pick: Pick, hits: seq<Hit>, canClose: bool, at: Time)
    ensures var (s', res, err) := OpenNextOutcome(s, pick, hits, canClose, at); TurnsMoved(s, hits, res, err, s')
  {
  }

  lemma PullMovesTurns(s: SessionState, found: bool, hits: seq<Hit>)
    ensures var (s', res, err) := PullOutcome(s, false, found, hits);
      TurnsMoved(s, hits, res, err, s') && s'.round == s.round && (res.Some? ==> res.value.closedRound.None?)
  {
  }

  /** open_next_action, decided by what the scheduler answers: it ends the round iff it is a race with a turn
      in it, nobody can pay and the round can be closed; it opens a turn iff one can open; and it fails iff
      nothing opens and there is neither a round to end nor a closed turn to keep without ending it. */
  lemma OpenNextDecides(s: SessionState, pick: Pick, hits: seq<Hit>, canClose: bool, at: Time)
    requires s.round < s.nextId
    ensures var (s', res, err) := OpenNextOutcome(s, pick, hits, canClose, at);
      var spent := pick == NoneCanPay && s.mode == Race;
      && (s'.round != s.round <==> spent && canClose && (s.HasOpenTurn() || s.turns > 0))
      && (s'.HasOpenTurn() <==> pick == Opens)
      && (err <==> if spent then !s.HasOpenTurn() && s.turns == 0 else pick != Opens)
      && (s'.round != s.round ==>
            && s'.round == s.nextId && s'.mode == s.mode && s'.scene == s.scene && s'.turns == 0
            && s'.current.None? && !s'.roundPersisted && s'.scenePersisted == s.scenePersisted)
  {
  }

  /** pull_action closes and opens unless its action is stacked on one still queued; without the action it
      closes all the same. */
  lemma PullDecides(s: SessionState, blocked: bool, found: bool, hits: seq<Hit>)
    ensures var (s', res, err) := PullOutcome(s, blocked, found, hits);
      && (blocked ==> s' == s && err && res.None?)
      && (!blocked ==> (s'.HasOpenTurn() <==> found) && (err <==> !found))
      && (!blocked && s.HasOpenTurn() ==> res.Some? && res.value.closedTurn == s.current)
      && s'.round == s.round && s'.mode == s.mode
  {
  }

  /** close_turn refuses, and then leaves the turn open and everything as it was, exactly when it is not
      confirmed and a player's reaction waits; with no open turn it fails; otherwise the turn is closed. */
  lemma CloseDecides(s: SessionState, confirm: bool, awaiting: bool, hits: seq<Hit>)
    ensures var (s', res, err) := CloseOutcome(s, confirm, awaiting, hits);
      && (res.Some? && res.value.refused <==> s.HasOpenTurn() && awaiting && !confirm)
      && (err <==> !s.HasOpenTurn()) && (err <==> res.None?)
      && (err || res.value.refused ==> s' == s)
      && (!err && !res.value.refused ==>
            !s'.HasOpenTurn() && s'.current == s.current && s'.turns == s.turns && res.value.closedTurn == s.current)
  {
  }
}
