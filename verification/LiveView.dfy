/** Everything in a world but the scene and round rows and their bookkeeping, and what each command
    does to it. The rounds and the rest share only the writes that carry both, so what is proved about
    sheets, held records and the board needs no word about rounds. Granularity: commands. */
module LiveView {
  import opened Prelude
  import opened Store
  import opened Session
  import opened RoomSpec

  /** current is the open turn; turns are the turns on disk; the fields after it are rows too. */
  datatype Live = Live(
    current: Option<Id>, mem: map<Id, Bars>, nextId: Id, unwritten: set<Id>, pending: map<Id, TurnWrites>,
    board: Board, mapped: bool, log: Log,
    turns: set<Id>, sheets: map<Id, Bars>, masterActions: seq<Record>, cancelledActions: seq<Record>,
      boardRow: Option<Board>)

  function LiveOf(w: World): Live {
    Live(OpenTurn(w.s), w.s.sheets, w.s.nextId, w.unwritten, w.pending, w.board, w.mapped, w.log,
         w.disk.turns.Keys, w.disk.sheets, w.disk.masterActions, w.disk.cancelledActions, w.disk.board)
  }

  // ---------------------------------------------------------------- what a command can do to it

  function Touched(v: Live, t: Option<Id>, touches: bool): Live {
    if touches then v.(board := v.board + [Change(v.nextId, t)], nextId := v.nextId + 1) else v
  }

  /** A turn's data as its close hands it over: what was held for it, the bars of every damaged sheet
      still to be written, and the board as it stands. */
  ghost predicate DataOf(v: Live, t: Id, damaged: set<Id>, data: TurnClose) {
    && data.turn == t && data.held == Held(v.pending, t)
    && data.bars == StatusBars(v.mem, v.unwritten + damaged)
    && data.board == (if v.mapped then Some(v.board) else None)
  }

  /** One PersistTurnClose and what its answer leaves. */
  function Wrote(v: Live, data: TurnClose, damaged: set<Id>, ok: bool): Live {
    var drained := v.(pending := v.pending - {data.turn}, log := v.log.(attempts := v.log.attempts + [data]));
    if ok
    then drained.(turns := v.turns + {data.turn}, sheets := WriteBars(v.sheets, data.bars),
                  masterActions := v.masterActions + data.held.masterActions,
                  cancelledActions := v.cancelledActions + data.held.cancelledActions,
                  boardRow := Coalesce(data.board, v.boardRow), unwritten := {})
    else drained.(unwritten := v.unwritten + damaged)
  }

  /** In memory: the open turn, if any, closes with its damage; a new one may open. */
  function TurnedOver(v: Live, hits: seq<Hit>, opens: bool, nextId: Id): Live {
    v.(current := if opens then Some(v.nextId) else None,
       mem := if v.current.Some? then ApplyHits(v.mem, hits) else v.mem,
       nextId := nextId,
       log := if v.current.Some? then v.log.(closed := v.log.closed + [v.current.value]) else v.log)
  }

  function DamagedIn(v: Live, hits: seq<Hit>): set<Id> {
    if v.current.Some? then ToSet(Damaged(v.mem, hits)) else {}
  }

  /** What a turn-closing verb carries out: turn over in memory, then the closed turn's own write, then
      the opened turn's moves. */
  datatype Verb = Verb(hits: seq<Hit>, opens: bool, nextId: Id, escapes: bool, moves: bool, ok: bool, data: TurnClose)

  /** The moment before the write: the close's own changes to the board are made. */
  function BeforeWrite(v: Live, b: Verb): Live {
    var over := TurnedOver(v, b.hits, b.opens, b.nextId);
    if v.current.Some? then Touched(over, v.current, b.escapes) else over
  }

  function Carried(v: Live, b: Verb): Live {
    var written := if v.current.Some? then Wrote(BeforeWrite(v, b), b.data, DamagedIn(v, b.hits), b.ok)
        else BeforeWrite(v, b);
    if b.opens then Touched(written, Some(v.nextId), b.moves) else written
  }

  ghost predicate Carries(v: Live, b: Verb, v': Live) {
    && v.nextId <= b.nextId && (b.opens ==> v.nextId < b.nextId)
    && (v.current.Some? ==> DataOf(BeforeWrite(v, b), v.current.value, DamagedIn(v, b.hits), b.data))
    && v' == Carried(v, b)
  }

  // ---------------------------------------------------------------- the writes of rounds change nothing here

  lemma {:induction false} WriteEndsOnlyPairs(d: Disk, ends: seq<RoundEnd>)
    ensures WriteEnds(d, ends) == d.(scenes := WriteEnds(d, ends).scenes, rounds := WriteEnds(d, ends).rounds)
  {
    if ends != [] { WriteEndsOnlyPairs(d, ends[..|ends| - 1]); }
  }

  lemma EnsureRowsLive(w: World, sc: SceneSnap, rd: RoundSnap, up: bool)
    ensures LiveOf(EnsureRows(w, sc, rd, up)) == LiveOf(w)
  {
    WriteEndsOnlyPairs(w.disk, w.ends);
  }

  lemma WriteRoundCloseLive(w: World, sc: SceneSnap, closed: RoundSnap, next: RoundSnap, up: bool)
    ensures LiveOf(WriteRoundClose(w, sc, closed, next, up)) == LiveOf(w)
  {
    WriteEndsOnlyPairs(w.disk, w.ends + [RoundEnd(sc, closed)]);
  }

  lemma TurnTxLive(d: Disk, t: TurnClose)
    ensures var d' := TurnTx(d, t);
      && d'.turns.Keys == d.turns.Keys + {t.turn} && d'.sheets == WriteBars(d.sheets, t.bars)
      && d'.masterActions == d.masterActions + t.held.masterActions
      && d'.cancelledActions == d.cancelledActions + t.held.cancelledActions
      && d'.board == Coalesce(t.board, d.board)
  {
    WriteEndsOnlyPairs(d, t.ends);
  }

  lemma PersistLive(w: World, t: Id, closedIn: Option<RoundSnap>, damaged: seq<Id>, turnUp: bool, salvageUp: bool)
    ensures var data := CloseData(w, t, closedIn, damaged);
      && DataOf(LiveOf(w), t, ToSet(damaged), data)
      && LiveOf(PersistClosedTurn(w, t, closedIn, damaged, turnUp, salvageUp)) ==
         Wrote(LiveOf(w), data, ToSet(damaged), turnUp && TurnAcceptable(w.disk, data))
  {
    var data := CloseData(w, t, closedIn, damaged);
    if turnUp && TurnAcceptable(w.disk, data) {
      TurnTxLive(w.disk, data);
      assert w.unwritten - SheetsToWrite(w, damaged) == {};
    } else if data.next.Some? {
      var lost := w.(pending := w.pending - {t}, unwritten := SheetsToWrite(w, damaged),
                     log := w.log.(attempts := w.log.attempts + [data]));
      WriteRoundCloseLive(lost, data.scene, data.round, data.next.value, salvageUp);
    }
  }

  // ---------------------------------------------------------------- the verbs

  predicate IsVerb(c: Command) { c.OpenNext? || c.Pull? || c.CloseTurn? }

  /** Whether the command closes the open turn: a pull that is blocked and a close that is refused do
      not. */
  predicate Closes(w: World, c: Command) {
    && w.s.HasOpenTurn()
    && (c.OpenNext? || (c.Pull? && !c.blocked) || (c.CloseTurn? && (c.confirm || !c.awaiting)))
  }

  lemma TouchLive(w: World, t: Option<Id>, touches: bool)
    ensures LiveOf(Touch(w, t, touches)) == Touched(LiveOf(w), t, touches)
  {
  }

  ghost function DataFor(w: World, res: Option<NextResult>, escapes: bool): TurnClose
    requires res.Some? && res.value.closedTurn.Some?
  {
    CloseData(Touch(w, res.value.closedTurn, escapes), res.value.closedTurn.value, res.value.closedRound,
      res.value.damaged)
  }

  lemma AfterCloseLive(w: World, res: Option<NextResult>, escapes: bool, turnUp: bool, endUp: bool)
    requires res.Some? && res.value.closedTurn.Some?
    ensures var data := DataFor(w, res, escapes);
      var before := Touched(LiveOf(w), res.value.closedTurn, escapes);
      && DataOf(before, res.value.closedTurn.value, ToSet(res.value.damaged), data)
      && LiveOf(AfterClose(w, res, escapes, turnUp, endUp)) ==
         Wrote(before, data, ToSet(res.value.damaged), turnUp && TurnAcceptable(w.disk, data))
  {
    var t := res.value.closedTurn;
    TouchLive(w, t, escapes);
    PersistLive(Touch(w, t, escapes), t.value, res.value.closedRound, res.value.damaged, turnUp, endUp);
  }

  lemma TailLive(w: World, res: Option<NextResult>, err: bool, moves: bool, endUp: bool)
    requires !err ==> res.Some?
    ensures LiveOf(OpenedOrEnded(w, res, err, moves, endUp)) ==
      if !err && res.value.closedRound.None? && res.value.openedTurn.Some?
      then Touched(LiveOf(w), res.value.openedTurn, moves) else LiveOf(w)
  {
    if !err && res.value.closedRound.Some? && res.value.closedTurn.None? {
      WriteRoundCloseLive(w, w.s.SceneNow(), res.value.closedRound.value, w.s.RoundNow(), endUp);
    }
  }

  const NOTHING: TurnClose := TurnClose(SceneSnap(0, None), RoundSnap(0, Free, None), 0, None, [], NOTHING_HELD, [],
    None)

  /** What the memory of open_next_action and pull_action looks like when Execute returns. */
  ghost predicate Executed(w: World, w1: World, hits: seq<Hit>, res: Option<NextResult>, err: bool) {
    var opens := res.Some? && res.value.openedTurn.Some?;
    && LiveOf(w1) == TurnedOver(LiveOf(w), hits, opens, w1.s.nextId)
    && w.s.nextId <= w1.s.nextId && (opens ==> w.s.nextId < w1.s.nextId)
    && w1.disk == w.disk && w1.ends == w.ends
    && (!err ==> res.Some?)
    && (w.s.HasOpenTurn() ==>
          res.Some? && res.value.closedTurn == OpenTurn(w.s) && res.value.damaged == Damaged(w.s.sheets, hits))
    && (!w.s.HasOpenTurn() && res.Some? ==> res.value.closedTurn.None?)
    && (opens ==> !err && res.value.closedRound.None? && res.value.openedTurn == Some(w.s.nextId))
    && (res.Some? && res.value.closedRound.Some? ==> res.value.closedRound.value.finished.Some?)
  }

  /** The round a turn of w would be written under: the one that just ended, or the active one. */
  predicate UnderItsRound(w: World, w1: World, res: Option<NextResult>) {
    if res.Some? && res.value.closedRound.Some? then res.value.closedRound.value.id == w.s.round
        else w1.s.round == w.s.round
  }

  function VerbOf(w1: World, hits: seq<Hit>, res: Option<NextResult>, escapes: bool, moves: bool): Verb {
    Verb(hits, res.Some? && res.value.openedTurn.Some?, w1.s.nextId, escapes, moves, false, NOTHING)
  }

  lemma ExecutedCarries(
    w: World, w1: World, hits: seq<Hit>, res: Option<NextResult>, err: bool,
    escapes: bool, moves: bool, turnUp: bool, endUp: bool) returns (b: Verb)
    requires Executed(w, w1, hits, res, err) && UnderItsRound(w, w1, res)
    ensures b.hits == hits && b.escapes == escapes && b.moves == moves
    ensures Carries(LiveOf(w), b, LiveOf(OpenedOrEnded(AfterClose(w1, res, escapes, turnUp, endUp), res, err, moves,
      endUp)))
    ensures w.s.HasOpenTurn() ==>
      b.ok == (turnUp && TurnAcceptable(w.disk, b.data)) && b.data.ends == w.ends
        && (b.data.next.Some? ==> b.data.round.finished.Some?) && b.data.round.id == w.s.round
  {
    b := VerbOf(w1, hits, res, escapes, moves);
    TailLive(AfterClose(w1, res, escapes, turnUp, endUp), res, err, moves, endUp);
    if w.s.HasOpenTurn() {
      var data := DataFor(w1, res, escapes);
      AfterCloseLive(w1, res, escapes, turnUp, endUp);
      b := b.(ok := turnUp && TurnAcceptable(w.disk, data), data := data);
    }
  }

  lemma MovedExecuted(w: World, s: SessionState, hits: seq<Hit>, res: Option<NextResult>, err: bool)
    requires TurnsMoved(w.s, hits, res, err, s)
    ensures Executed(w, NoteClosed(w.(s := s), ClosedTurn(w.s)), hits, res, err)
  {
  }

  lemma OpenNextExecuted(w: World, c: Command)
    requires c.OpenNext?
    ensures var (s, res, err) := OpenNextOutcome(w.s, c.pick, c.hits, c.canClose, c.at);
      Executed(w, NoteClosed(w.(s := s), ClosedTurn(w.s)), c.hits, res, err)
  {
    var (s, res, err) := OpenNextOutcome(w.s, c.pick, c.hits, c.canClose, c.at);
    OpenNextMovesTurns(w.s, c.pick, c.hits, c.canClose, c.at);
    MovedExecuted(w, s, c.hits, res, err);
  }

  lemma OpenNextUnderItsRound(w: World, c: Command)
    requires c.OpenNext?
    ensures var (s, res, err) := OpenNextOutcome(w.s, c.pick, c.hits, c.canClose, c.at);
      UnderItsRound(w, NoteClosed(w.(s := s), ClosedTurn(w.s)), res)
  {
    OpenNextMovesRounds(w.s, c.pick, c.hits, c.canClose, c.at);
  }

  lemma PullExecuted(w: World, c: Command)
    requires c.Pull? && !c.blocked
    ensures var (s, res, err) := PullOutcome(w.s, c.blocked, c.found, c.hits);
      var w1 := NoteClosed(w.(s := s), ClosedTurn(w.s));
      Executed(w, w1, c.hits, res, err) && UnderItsRound(w, w1, res)
  {
    var (s, res, err) := PullOutcome(w.s, c.blocked, c.found, c.hits);
    PullMovesTurns(w.s, c.found, c.hits);
    MovedExecuted(w, s, c.hits, res, err);
  }

  lemma OpenNextLive(w: World, c: Command) returns (b: Verb)
    requires c.OpenNext?
    ensures b.hits == c.hits && b.escapes == c.escapes && b.moves == c.moves
    ensures Carries(LiveOf(w), b, LiveOf(DoOpenNext(w, c)))
    ensures w.s.HasOpenTurn() ==>
      b.ok == (c.turnUp && TurnAcceptable(w.disk, b.data)) && b.data.ends == w.ends
        && (b.data.next.Some? ==> b.data.round.finished.Some?) && b.data.round.id == w.s.round
  {
    var (s, res, err) := OpenNextOutcome(w.s, c.pick, c.hits, c.canClose, c.at);
    var w1 := NoteClosed(w.(s := s), ClosedTurn(w.s));
    OpenNextExecuted(w, c);
    OpenNextUnderItsRound(w, c);
    b := ExecutedCarries(w, w1, c.hits, res, err, c.escapes, c.moves, c.turnUp, c.endUp);
  }

  lemma PullLive(w: World, c: Command) returns (b: Verb)
    requires c.Pull? && !c.blocked
    ensures b.hits == c.hits && b.escapes == c.escapes && b.moves == c.moves
    ensures Carries(LiveOf(w), b, LiveOf(DoPull(w, c)))
    ensures w.s.HasOpenTurn() ==>
      b.ok == (c.turnUp && TurnAcceptable(w.disk, b.data)) && b.data.ends == w.ends
        && (b.data.next.Some? ==> b.data.round.finished.Some?) && b.data.round.id == w.s.round
  {
    var (s, res, err) := PullOutcome(w.s, c.blocked, c.found, c.hits);
    var w1 := NoteClosed(w.(s := s), ClosedTurn(w.s));
    PullExecuted(w, c);
    b := ExecutedCarries(w, w1, c.hits, res, err, c.escapes, c.moves, c.turnUp, false);
  }

  lemma CloseTurnLive(w: World, c: Command) returns (b: Verb)
    requires c.CloseTurn? && Closes(w, c)
    ensures b.hits == c.hits && b.escapes == c.escapes && !b.moves
    ensures Carries(LiveOf(w), b, LiveOf(DoCloseTurn(w, c)))
    ensures b.ok == (c.turnUp && TurnAcceptable(w.disk, b.data)) && b.data.ends == w.ends
    ensures b.data.next.None? && b.data.round.id == w.s.round
  {
    var (s, res, err) := CloseOutcome(w.s, c.confirm, c.awaiting, c.hits);
    var t := res.value.closedTurn;
    var w1 := NoteClosed(w.(s := s), t);
    assert LiveOf(w1) == TurnedOver(LiveOf(w), c.hits, false, s.nextId);
    TouchLive(w1, t, c.escapes);
    PersistLive(Touch(w1, t, c.escapes), t.value, None, res.value.damaged, c.turnUp, false);
    var data := CloseData(Touch(w1, t, c.escapes), t.value, None, res.value.damaged);
    b := Verb(c.hits, false, s.nextId, c.escapes, false, c.turnUp && TurnAcceptable(w.disk, data), data);
  }

  /** Every turn-closing verb turns over in memory, writes the closed turn once and only then touches
      the board for the opened one. */
  lemma VerbLive(w: World, c: Command) returns (b: Verb)
    requires IsVerb(c) && Closes(w, c)
    ensures b.hits == c.hits && b.escapes == c.escapes && (b.moves <==> !c.CloseTurn? && c.moves)
    ensures Carries(LiveOf(w), b, LiveOf(Step(w, c)))
    ensures b.ok == (c.turnUp && TurnAcceptable(w.disk, b.data)) && b.data.ends == w.ends
    ensures (b.data.next.Some? ==> b.data.round.finished.Some?) && b.data.round.id == w.s.round
  {
    if c.OpenNext? {
      b := OpenNextLive(w, c);
    } else if c.Pull? {
      b := PullLive(w, c);
    } else {
      b := CloseTurnLive(w, c);
    }
  }

  // ---------------------------------------------------------------- the other commands

  lemma ChangeSceneLive(w: World, c: Command)
    requires c.ChangeScene?
    ensures LiveOf(w).nextId <= LiveOf(DoChangeScene(w, c)).nextId
    ensures LiveOf(DoChangeScene(w, c)) == LiveOf(w).(nextId := LiveOf(DoChangeScene(w, c)).nextId)
  {
    if !w.s.HasOpenTurn() {
      var end := RoundEnd(SceneSnap(w.s.scene, Some(c.at)), RoundSnap(w.s.round, w.s.mode, Some(c.at)));
      var w1 := w.(s := SceneChanged(w.s));
      var w2 :=
        if !w.s.scenePersisted || !c.closeUp then w1.(ends := MarkEnd(w1.ends, end))
        else w1.(disk := ClosePair(w1.disk, w.s.scene, w.s.round, c.at));
      EnsureRowsLive(w2, w2.s.SceneNow(), w2.s.RoundNow(), c.birthUp);
    }
  }

  lemma ChangeModeLive(w: World, c: Command)
    requires c.ChangeMode?
    ensures LiveOf(DoChangeMode(w, c)) == LiveOf(w)
  {
    var w1 := w.(s := w.s.(mode := c.mode));
    EnsureRowsLive(w1, w1.s.SceneNow(), w1.s.RoundNow(), c.ensureUp);
  }

  /** A record taken while a turn is open waits for that turn's close; one taken between turns is
      written now or never. */
  function MasterRecorded(v: Live, rec: Record, inserted: bool): Live {
    if rec.turn.Some? then
      var t := rec.turn.value;
      var held, accepted := Held(v.pending, t), Held(v.log.accepted, t);
      v.(pending := v.pending[t := held.(masterActions := held.masterActions + [rec])],
         log := v.log.(accepted := v.log.accepted[t := accepted.(masterActions := accepted.masterActions + [rec])]))
    else if inserted then v.(masterActions := v.masterActions + [rec])
    else v
  }

  function CancelRecorded(v: Live, rec: Record, inserted: bool): Live {
    if rec.turn.Some? then
      var t := rec.turn.value;
      var held, accepted := Held(v.pending, t), Held(v.log.accepted, t);
      v.(pending := v.pending[t := held.(cancelledActions := held.cancelledActions + [rec])],
         log := v.log.(
           accepted := v.log.accepted[t := accepted.(cancelledActions := accepted.cancelledActions + [rec])]))
    else if inserted then v.(cancelledActions := v.cancelledActions + [rec])
    else v
  }

  lemma MasterRowLive(w: World, v: Live, rec: Record, up: bool)
    requires rec.turn.None? && LiveOf(w) == v
    ensures LiveOf(MasterRow(w, rec, up)) == MasterRecorded(v, rec, up && RecordAcceptable(w.disk, rec))
  {
  }

  lemma RecordReadyLive(w: World, ensureUp: bool)
    ensures LiveOf(RecordReady(w, ensureUp)) == LiveOf(w).(nextId := w.s.nextId + 1)
  {
    var w1 := w.(s := w.s.(nextId := w.s.nextId + 1));
    EnsureRowsLive(w1, w1.s.SceneNow(), w1.s.RoundNow(), ensureUp);
  }

  function RowTaken(w: World, ensureUp: bool, insertUp: bool): bool {
    && RowTried(w, ensureUp, insertUp)
    && RecordAcceptable(RecordReady(w, ensureUp).disk, Record(w.s.nextId, w.s.scene, w.s.round, None))
  }

  /** What a master action leaves: a held record, a row, or nothing. */
  lemma RecordMasterLive(w: World, ensureUp: bool, insertUp: bool)
    ensures LiveOf(RecordMaster(w, ensureUp, insertUp)) ==
      MasterRecorded(LiveOf(w).(nextId := w.s.nextId + 1), Record(w.s.nextId, w.s.scene, w.s.round, OpenTurn(w.s)),
                     RowTaken(w, ensureUp, insertUp))
  {
    if OpenTurn(w.s).None? {
      RecordMasterBetween(w, ensureUp, insertUp);
      RecordReadyLive(w, ensureUp);
      MasterRowLive(RecordReady(w, ensureUp), LiveOf(w).(nextId := w.s.nextId + 1),
        Record(w.s.nextId, w.s.scene, w.s.round, None),
                    RowTried(w, ensureUp, insertUp));
    }
  }

  lemma MasterActionLive(w: World, c: Command) returns (inserted: bool, saved: bool)
    requires c.MasterAction?
    ensures var v := Touched(LiveOf(w), OpenTurn(w.s), c.touches);
      var after := if saved then v.(boardRow := Some(v.board)) else v;
      && (saved ==> OpenTurn(w.s).None? && w.mapped)
      && LiveOf(DoMasterAction(w, c)) ==
         MasterRecorded(after.(nextId := v.nextId + 1), Record(v.nextId, w.s.scene, w.s.round, OpenTurn(w.s)), inserted)
  {
    TouchLive(w, OpenTurn(w.s), c.touches);
    var w1 := Touch(w, OpenTurn(w.s), c.touches);
    saved := !w1.s.HasOpenTurn() && w1.mapped && c.boardUp;
    var w2 := PersistBoardOutsideTurn(w1, c.boardUp);
    RecordMasterLive(w2, c.ensureUp, c.insertUp);
    inserted := RowTaken(w2, c.ensureUp, c.insertUp);
  }

  /** A cascade, one record an action; inserted[i] says whether the i-th became a row. */
  function CancelledAll(v: Live, recs: seq<Record>, inserted: seq<bool>): Live
    requires |recs| == |inserted|
  {
    if recs == [] then v
    else
      var n := |recs| - 1;
      CancelRecorded(CancelledAll(v, recs[..n], inserted[..n]), recs[n], inserted[n])
  }

  function CancelRecords(s: SessionState, acts: seq<Cancelling>): seq<Record> {
    seq(|acts|, i requires 0 <= i < |acts| => CancelRecord(s, acts[i]))
  }

  lemma {:induction false} HoldAllLive(w: World, t: Id, acts: seq<Cancelling>) returns (inserted: seq<bool>)
    requires OpenTurn(w.s) == Some(t)
    ensures |inserted| == |acts|
    ensures LiveOf(HoldAll(w, t, acts)) == CancelledAll(LiveOf(w), CancelRecords(w.s, acts), inserted)
    ensures HoldAll(w, t, acts).s == w.s
  {
    if acts == [] {
      inserted := [];
    } else {
      var n := |acts| - 1;
      inserted := HoldAllLive(w, t, acts[..n]);
      assert CancelRecords(w.s, acts)[..n] == CancelRecords(w.s, acts[..n]);
      inserted := inserted + [false];
      assert inserted[..n] + [false] == inserted;
    }
  }

  lemma WriteCancelledLive(w: World, sc: SceneSnap, rd: RoundSnap, persisted: bool,
      c: Cancelling) returns (inserted: bool)
    ensures LiveOf(WriteCancelled(w, sc, rd, persisted, c)) ==
      CancelRecorded(LiveOf(w), Record(c.action, sc.id, rd.id, None), inserted)
  {
    EnsureRowsLive(w, sc, rd, c.ensureUp);
    var w1 := if persisted then w else EnsureRows(w, sc, rd, c.ensureUp);
    inserted := (persisted || EnsureOk(w, c.ensureUp)) && c.insertUp
      && RecordAcceptable(w1.disk, Record(c.action, sc.id, rd.id, None));
  }

  lemma {:induction false} WriteAllLive(w: World, s: SessionState, persisted: bool,
      acts: seq<Cancelling>) returns (inserted: seq<bool>)
    requires OpenTurn(s).None?
    ensures |inserted| == |acts|
    ensures LiveOf(WriteAllCancelled(w, s.SceneNow(), s.RoundNow(), persisted, acts)) ==
      CancelledAll(LiveOf(w), CancelRecords(s, acts), inserted)
  {
    if acts == [] {
      inserted := [];
    } else {
      var n := |acts| - 1;
      inserted := WriteAllLive(w, s, persisted, acts[..n]);
      assert CancelRecords(s, acts)[..n] == CancelRecords(s, acts[..n]);
      var last := WriteCancelledLive(WriteAllCancelled(w, s.SceneNow(), s.RoundNow(), persisted, acts[..n]),
          s.SceneNow(), s.RoundNow(), persisted, acts[n]);
      var before := inserted;
      inserted := inserted + [last];
      assert inserted[..n] == before;
    }
  }

  lemma CancelLive(w: World, acts: seq<Cancelling>) returns (inserted: seq<bool>)
    ensures |inserted| == |acts|
    ensures LiveOf(Cancel(w, acts)) == CancelledAll(LiveOf(w), CancelRecords(w.s, acts), inserted)
  {
    if w.s.HasOpenTurn() { inserted := HoldAllLive(w, w.s.current.value, acts); }
    else { inserted := WriteAllLive(w, w.s, w.s.roundPersisted, acts); }
  }

  /** A new room: the turn that was open is gone, with all that was held for it; sheets and board are
      read back. */
  function Reborn(v: Live, nextId: Id): Live {
    v.(current := None, mem := v.sheets, nextId := nextId, unwritten := {}, pending := map[],
       board := if v.boardRow.Some? then v.boardRow.value else [])
  }

  lemma RestartLive(w: World, c: Command)
    requires c.Restart?
    ensures w.s.nextId <= LiveOf(DoRestart(w, c)).nextId
    ensures LiveOf(DoRestart(w, c)) == Reborn(LiveOf(w), LiveOf(DoRestart(w, c)).nextId)
  {
  }

  // ---------------------------------------------------------------- every command at once

  ghost predicate MasterStep(v: Live, touches: bool, v': Live) {
    exists inserted: bool, saved: bool, scene: Id, round: Id ::
      MasterStepBy(v, touches, v', inserted, saved, scene, round)
  }

  ghost predicate MasterStepBy(v: Live, touches: bool, v': Live, inserted: bool, saved: bool, scene: Id, round: Id) {
    var touched := Touched(v, v.current, touches);
    var after := if saved then touched.(boardRow := Some(touched.board)) else touched;
    && (saved ==> v.current.None? && v.mapped)
    && v' == MasterRecorded(after.(nextId := touched.nextId + 1), Record(touched.nextId, scene, round, v.current),
          inserted)
  }

  ghost predicate CancelStep(v: Live, v': Live) {
    exists recs: seq<Record>, inserted: seq<bool> :: CancelStepBy(v, v', recs, inserted)
  }

  ghost predicate CancelStepBy(v: Live, v': Live, recs: seq<Record>, inserted: seq<bool>) {
    && |recs| == |inserted|
    && (forall i :: 0 <= i < |recs| ==> recs[i].turn == v.current)
    && v' == CancelledAll(v, recs, inserted)
  }

  ghost predicate LiveStep(v: Live, c: Command, v': Live) {
    match c
    case OpenNext(_, _, _, _, _, _, _, _) => exists b: Verb :: b.hits == c.hits && Carries(v, b, v')
    case Pull(_, _, _, _, _, _) => v' == v || exists b: Verb :: b.hits == c.hits && Carries(v, b, v')
    case CloseTurn(_, _, _, _, _) => v' == v || exists b: Verb :: b.hits == c.hits && Carries(v, b, v')
    case ChangeScene(_, _, _) => v.nextId <= v'.nextId && v' == v.(nextId := v'.nextId)
    case ChangeMode(_, _, _) => v' == v
    case MasterAction(touches, _, _, _) => MasterStep(v, touches, v')
    case CancelActions(_) => CancelStep(v, v')
    case EditSheet(character, bars) => v' ==
        (if character in v.sheets then v.(sheets := v.sheets[character := bars]) else v)
    case Restart(_) => v.nextId <= v'.nextId && v' == Reborn(v, v'.nextId)
  }

  lemma VerbStep(w: World, c: Command)
    requires IsVerb(c)
    ensures LiveStep(LiveOf(w), c, LiveOf(Step(w, c)))
  {
    if c.OpenNext? {
      var b := OpenNextLive(w, c);
    } else if c.Pull? && !c.blocked {
      var b := PullLive(w, c);
    } else if c.CloseTurn? && Closes(w, c) {
      var b := CloseTurnLive(w, c);
    }
  }

  lemma RecordStep(w: World, c: Command)
    requires c.MasterAction? || c.CancelActions?
    ensures LiveStep(LiveOf(w), c, LiveOf(Step(w, c)))
  {
    if c.MasterAction? {
      var inserted, saved := MasterActionLive(w, c);
      assert MasterStepBy(LiveOf(w), c.touches, LiveOf(Step(w, c)), inserted, saved, w.s.scene, w.s.round);
    } else {
      var inserted := CancelLive(w, c.acts);
      assert CancelStepBy(LiveOf(w), LiveOf(Step(w, c)), CancelRecords(w.s, c.acts), inserted);
    }
  }

  lemma StepLive(w: World, c: Command)
    ensures LiveStep(LiveOf(w), c, LiveOf(Step(w, c)))
  {
    match c {
      case OpenNext(_, _, _, _, _, _, _, _) => VerbStep(w, c);
      case Pull(_, _, _, _, _, _) => VerbStep(w, c);
      case CloseTurn(_, _, _, _, _) => VerbStep(w, c);
      case ChangeScene(_, _, _) => ChangeSceneLive(w, c);
      case ChangeMode(_, _, _) => ChangeModeLive(w, c);
      case MasterAction(_, _, _, _) => RecordStep(w, c);
      case CancelActions(_) => RecordStep(w, c);
      case EditSheet(_, _) =>
      case Restart(_) => RestartLive(w, c);
    }
  }

  lemma GenesisLive(sheets: map<Id, Bars>, mapped: bool, birthUp: bool)
    ensures LiveOf(Genesis(sheets, mapped, birthUp)) ==
      Live(None, sheets, 2, {}, map[], [], mapped, Log([], [], map[]), {}, sheets, [], [], None)
  {
  }
}
