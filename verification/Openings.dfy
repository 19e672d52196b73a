/** The turns a session opens, as someone at the table would count them, and what the session's own counter
    says of them. Granularity: commands. */
module Openings {
  import opened Prelude
  import opened Store
  import opened Session
  import opened RoomSpec
  import opened RoundInvariant
  import opened RoundRuns
  import opened LiveView
  import opened TurnInvariant
  import opened RoundEnds

  /** A turn seen to open, and the round that was active then. */
  datatype Opening = Opening(round: Id, turn: Id)

  /** What is seen from one state of the session to the next: a turn that is open now and was not. */
  function Seen(s: SessionState, s': SessionState): seq<Opening> {
    if s'.HasOpenTurn() && !(s.HasOpenTurn() && s.current == s'.current) then [Opening(s'.round, s'.current.value)]
        else []
  }

  /** Every opening seen since this session began: a restart begins another. */
  ghost function Openings(w: World, commands: seq<Command>): seq<Opening> {
    if commands == [] then []
    else
      var n := |commands| - 1;
      (if commands[n].Restart? then [] else Openings(w, commands[..n])) +
      Seen(Run(w, commands[..n]).s, Run(w, commands).s)
  }

  function CountIn(log: seq<Opening>, round: Id): nat {
    if log == [] then 0
    else CountIn(log[..|log| - 1], round) + if log[|log| - 1].round == round then 1 else 0
  }

  lemma CountGrows(log: seq<Opening>, o: Opening, round: Id)
    ensures CountIn(log + [o], round) == CountIn(log, round) + if o.round == round then 1 else 0
  {
    assert (log + [o])[..|log|] == log;
  }

  lemma {:induction false} NoneOfALaterRound(log: seq<Opening>, round: Id)
    requires forall i :: 0 <= i < |log| ==> log[i].round < round
    ensures CountIn(log, round) == 0
  {
    if log != [] { NoneOfALaterRound(log[..|log| - 1], round); }
  }

  lemma {:induction false} CountedIsThere(log: seq<Opening>, round: Id)
    requires CountIn(log, round) > 0
    ensures exists i :: 0 <= i < |log| && log[i].round == round
  {
    var n := |log| - 1;
    if log[n].round != round {
      CountedIsThere(log[..n], round);
      var i :| 0 <= i < n && log[..n][i].round == round;
      assert log[i].round == round;
    }
  }

  /** The counter counts the openings seen in the active round; the open turn is the last one seen, in it. */
  ghost predicate Tallied(s: SessionState, log: seq<Opening>) {
    && s.turns == CountIn(log, s.round)
    && (forall i :: 0 <= i < |log| ==> log[i].round < s.nextId && log[i].turn < s.nextId)
    && (forall i, j :: 0 <= i < j < |log| ==> log[i].turn < log[j].turn)
    && (s.HasOpenTurn() ==> log != [] && log[|log| - 1] == Opening(s.round, s.current.value))
    && s.round < s.nextId
  }

  // ---------------------------------------------------------------- what a command may do to the session's turns

  /** A turn opens, under a fresh id in the same round, counted once. */
  predicate TurnOpens(s: SessionState, s': SessionState) {
    && s'.round == s.round && s'.turns == s.turns + 1 && s.nextId < s'.nextId
    && s'.HasOpenTurn() && s'.current == Some(s.nextId)
  }

  /** No turn opens in the same round: the open one stays or closes. */
  predicate Rests(s: SessionState, s': SessionState) {
    && s'.round == s.round && s'.turns == s.turns && s.nextId <= s'.nextId
    && (s'.HasOpenTurn() ==> s.HasOpenTurn() && s'.current == s.current)
  }

  /** A fresh round, with no turn. */
  predicate Renews(s: SessionState, s': SessionState) {
    s.nextId <= s'.round < s'.nextId && s'.turns == 0 && !s'.HasOpenTurn()
  }

  predicate TurnsStep(s: SessionState, s': SessionState) { TurnOpens(s, s') || Rests(s, s') || Renews(s, s') }

  lemma StepTallies(s: SessionState, s': SessionState, log: seq<Opening>)
    requires Tallied(s, log) && TurnsStep(s, s')
    ensures Tallied(s', log + Seen(s, s'))
  {
    var log' := log + Seen(s, s');
    if TurnOpens(s, s') {
      CountGrows(log, Opening(s'.round, s'.current.value), s'.round);
    } else {
      assert log' == log;
      if Renews(s, s') { NoneOfALaterRound(log, s'.round); }
    }
  }

  lemma OutcomeSteps(s: SessionState, pick: Pick, hits: seq<Hit>, canClose: bool, at: Time)
    ensures TurnsStep(s, OpenNextOutcome(s, pick, hits, canClose, at).0)
  {
  }

  lemma PullSteps(s: SessionState, blocked: bool, found: bool, hits: seq<Hit>)
    ensures TurnsStep(s, PullOutcome(s, blocked, found, hits).0)
  {
  }

  lemma SameThen(s: SessionState, s1: SessionState, s2: SessionState)
    requires TurnsStep(s, s1) && SameTurns(s1, s2) && s1.nextId <= s2.nextId
    ensures TurnsStep(s, s2)
  {
  }

  lemma VerbTurnsStep(w: World, c: Command)
    requires IsVerb(c)
    ensures TurnsStep(w.s, Step(w, c).s)
  {
    VerbNextId(w, c);
    if c.OpenNext? {
      OpenNextSameTurns(w, c);
      OutcomeSteps(w.s, c.pick, c.hits, c.canClose, c.at);
      SameThen(w.s, OpenNextOutcome(w.s, c.pick, c.hits, c.canClose, c.at).0, Step(w, c).s);
    } else if c.Pull? {
      PullSameTurns(w, c);
      PullSteps(w.s, c.blocked, c.found, c.hits);
      SameThen(w.s, PullOutcome(w.s, c.blocked, c.found, c.hits).0, Step(w, c).s);
    } else {
      CloseTurnSameTurns(w, c);
      SameThen(w.s, CloseOutcome(w.s, c.confirm, c.awaiting, c.hits).0, Step(w, c).s);
    }
  }

  lemma PersistNextId(w: World, t: Id, closedIn: Option<RoundSnap>, damaged: seq<Id>, turnUp: bool, salvageUp: bool)
    ensures PersistClosedTurn(w, t, closedIn, damaged, turnUp, salvageUp).s.nextId == w.s.nextId
  {
  }

  lemma ExecutedNextId(
    w: World, res: Option<NextResult>, err: bool, escapes: bool, moves: bool, turnUp: bool, endUp: bool)
    requires !err ==> res.Some?
    ensures w.s.nextId <= OpenedOrEnded(AfterClose(w, res, escapes, turnUp, endUp), res, err, moves, endUp).s.nextId
  {
    if res.Some? && res.value.closedTurn.Some? {
      var t := res.value.closedTurn;
      PersistNextId(Touch(w, t, escapes), t.value, res.value.closedRound, res.value.damaged, turnUp, endUp);
    }
  }

  lemma VerbNextId(w: World, c: Command)
    requires IsVerb(c)
    ensures c.OpenNext? ==> OpenNextOutcome(w.s, c.pick, c.hits, c.canClose, c.at).0.nextId <= Step(w, c).s.nextId
    ensures c.Pull? ==> PullOutcome(w.s, c.blocked, c.found, c.hits).0.nextId <= Step(w, c).s.nextId
    ensures c.CloseTurn? ==> CloseOutcome(w.s, c.confirm, c.awaiting, c.hits).0.nextId <= Step(w, c).s.nextId
  {
    if c.OpenNext? {
      var (s, res, err) := OpenNextOutcome(w.s, c.pick, c.hits, c.canClose, c.at);
      ExecutedNextId(NoteClosed(w.(s := s), ClosedTurn(w.s)), res, err, c.escapes, c.moves, c.turnUp, c.endUp);
    } else if c.Pull? {
      var (s, res, err) := PullOutcome(w.s, c.blocked, c.found, c.hits);
      var w1 := if c.blocked then w.(s := s) else NoteClosed(w.(s := s), ClosedTurn(w.s));
      ExecutedNextId(w1, res, err, c.escapes, c.moves, c.turnUp, false);
    } else {
      var (s, res, err) := CloseOutcome(w.s, c.confirm, c.awaiting, c.hits);
      if !err && !res.value.refused && res.value.closedTurn.Some? {
        var t := res.value.closedTurn;
        PersistNextId(Touch(NoteClosed(w.(s := s), t), t, c.escapes), t.value, None, res.value.damaged, c.turnUp,
          false);
      }
    }
  }

  lemma SceneSteps(w: World, c: Command)
    requires c.ChangeScene?
    ensures TurnsStep(w.s, DoChangeScene(w, c).s)
  {
  }

  lemma RecordSteps(w: World, c: Command)
    requires c.ChangeMode? || c.MasterAction? || c.CancelActions?
    ensures TurnsStep(w.s, Step(w, c).s)
  {
    StepLive(w, c);
    if c.ChangeMode? {
      ChangeModeSameTurns(w, c);
    } else if c.MasterAction? {
      MasterActionSameTurns(w, c);
      MasterNextId(LiveOf(w), c.touches, LiveOf(Step(w, c)));
    } else if w.s.HasOpenTurn() {
      HoldAllRounds(w, w.s.current.value, c.acts);
    } else {
      CancelSameTurns(w, w.s.SceneNow(), w.s.RoundNow(), w.s.roundPersisted, c.acts);
      CancelNextId(LiveOf(w), LiveOf(Step(w, c)));
    }
  }

  lemma MasterNextId(v: Live, touches: bool, v': Live)
    requires MasterStep(v, touches, v')
    ensures v.nextId <= v'.nextId
  {
    var after, rec, inserted := MasterStepParts(v, touches, v');
  }

  lemma CancelNextId(v: Live, v': Live)
    requires CancelStep(v, v')
    ensures v.nextId == v'.nextId
  {
    var recs, inserted :| CancelStepBy(v, v', recs, inserted);
    CancelledAllNextId(v, recs, inserted);
  }

  lemma {:induction false} CancelledAllNextId(v: Live, recs: seq<Record>, inserted: seq<bool>)
    requires |recs| == |inserted|
    ensures CancelledAll(v, recs, inserted).nextId == v.nextId
  {
    if recs != [] { CancelledAllNextId(v, recs[..|recs| - 1], inserted[..|recs| - 1]); }
  }

  lemma StepSteps(w: World, c: Command)
    requires !c.Restart?
    ensures TurnsStep(w.s, Step(w, c).s)
  {
    match c {
      case OpenNext(_, _, _, _, _, _, _, _) => VerbTurnsStep(w, c);
      case Pull(_, _, _, _, _, _) => VerbTurnsStep(w, c);
      case CloseTurn(_, _, _, _, _) => VerbTurnsStep(w, c);
      case ChangeScene(_, _, _) => SceneSteps(w, c);
      case ChangeMode(_, _, _) => RecordSteps(w, c);
      case MasterAction(_, _, _, _) => RecordSteps(w, c);
      case CancelActions(_) => RecordSteps(w, c);
      case EditSheet(_, _) => assert Step(w, c).s == w.s;
      case Restart(_) => assert false;
    }
  }

  // ---------------------------------------------------------------- runs

  lemma NewSessionTallies(w: World, c: Command, orphans: set<Id>)
    requires c.Restart? && RoundInv(RoundsOf(w), orphans)
    ensures Tallied(Step(w, c).s, []) && !Step(w, c).s.HasOpenTurn()
  {
    RestartRounds(w, c, orphans);
    var s := Rehydrated(w.disk, w.s.nextId);
    assert SameTurns(s, DoRestart(w, c).s);
  }

  lemma {:induction false} RunTallies(w: World, commands: seq<Command>)
    requires RoundInv(RoundsOf(w), {}) && Tallied(w.s, [])
    ensures Tallied(Run(w, commands).s, Openings(w, commands))
  {
    if commands != [] {
      var n := |commands| - 1;
      var before := Run(w, commands[..n]);
      RunTallies(w, commands[..n]);
      if commands[n].Restart? {
        RunRounds(w, commands[..n]);
        NewSessionTallies(before, commands[n], RunOrphans(w, commands[..n]));
        assert Openings(w, commands) == [];
      } else {
        StepSteps(before, commands[n]);
        StepTallies(before.s, Run(w, commands).s, Openings(w, commands[..n]));
      }
    }
  }

  lemma GenesisTallies(sheets: map<Id, Bars>, mapped: bool, birthUp: bool)
    ensures Tallied(Genesis(sheets, mapped, birthUp).s, [])
  {
  }

  /** Over any run: the session's count of a round's turns is the turns seen to open in it since the session
      began, each once, and the open turn is the last of them. */
  lemma TheCountIsTheTable(sheets: map<Id, Bars>, mapped: bool, birthUp: bool, commands: seq<Command>)
    ensures var g := Genesis(sheets, mapped, birthUp);
      var s, log := Run(g, commands).s, Openings(g, commands);
      && s.turns == CountIn(log, s.round)
      && (forall i, j :: 0 <= i < j < |log| ==> log[i].turn != log[j].turn)
      && (s.HasOpenTurn() ==> log != [] && log[|log| - 1] == Opening(s.round, s.current.value))
  {
    GenesisRounds(sheets, mapped, birthUp);
    GenesisTallies(sheets, mapped, birthUp);
    RunTallies(Genesis(sheets, mapped, birthUp), commands);
  }

  lemma OpenIsCounted(s: SessionState, log: seq<Opening>)
    requires s.turns == CountIn(log, s.round)
    requires s.HasOpenTurn() ==> log != [] && log[|log| - 1].round == s.round
    ensures Counted(s)
  {
  }

  /** A verb opens what it is asked to open: a turn nobody has seen before, in the active round. */
  lemma OpeningIsSeen(w: World, c: Command)
    requires (c.OpenNext? && c.pick == Opens) || (c.Pull? && !c.blocked && c.found)
    requires w.s.HasOpenTurn() ==> w.s.current.value < w.s.nextId
    ensures Seen(w.s, Step(w, c).s) == [Opening(w.s.round, w.s.nextId)]
  {
    if c.OpenNext? { OpenNextSameTurns(w, c); } else { PullSameTurns(w, c); }
  }

  /** Over any run: a round open_next_action ends had a turn — one was seen to open in it — and its end is on
      disk, with its successor, iff the closed turn's transaction or the round's own got through: exactly one
      of the two carried it then, the own only when the turn's did not; and otherwise it waits. */
  lemma RoundEndReachesDisk(sheets: map<Id, Bars>, mapped: bool, birthUp: bool, commands: seq<Command>, c: Command)
    requires c.OpenNext?
    ensures var g := Genesis(sheets, mapped, birthUp);
      var w := Run(g, commands);
      var w' := DoOpenNext(w, c);
      var closed := RoundSnap(w.s.round, w.s.mode, Some(c.at));
      var byTurn := w.s.HasOpenTurn() && c.turnUp;
      w'.s.round != w.s.round ==>
        && (exists i :: 0 <= i < |Openings(g, commands)| && Openings(g, commands)[i].round == w.s.round)
        && !w'.s.HasOpenTurn() && w'.s.turns == 0
        && EndSettled(w', closed, byTurn || c.endUp)
        && (CarriedByTurn(w, w', w.s.round) <==> byTurn)
        && (CarriedByItsOwn(w, w', w.s.round) <==> !byTurn && c.endUp)
  {
    var g := Genesis(sheets, mapped, birthUp);
    var w := Run(g, commands);
    GenesisRounds(sheets, mapped, birthUp);
    RunRounds(g, commands);
    GenesisTurns(sheets, mapped, birthUp);
    RunTurns(g, commands);
    TheCountIsTheTable(sheets, mapped, birthUp, commands);
    OpenIsCounted(w.s, Openings(g, commands));
    OpenNextEnds(w, c, RunOrphans(g, commands));
    if DoOpenNext(w, c).s.round != w.s.round {
      CountedIsThere(Openings(g, commands), w.s.round);
      VerbTurnsStep(w, c);
    }
  }
}
