/** A round that open_next_action ends: it had a turn, and its end reaches the disk through the closed
    turn's transaction or, failing that, through its own; or it waits. Granularity: commands. */
module RoundEnds {
  import opened Prelude
  import opened Store
  import opened Session
  import opened RoomSpec
  import opened RoundInvariant
  import opened RoundRuns
  import opened LiveView
  import opened TurnInvariant

  // ---------------------------------------------------------------- an open turn is one of the round's

  predicate Counted(s: SessionState) { s.HasOpenTurn() ==> s.turns > 0 }

  /** The session but for its persisted flags. */
  predicate SameTurns(s: SessionState, s': SessionState) {
    s'.turns == s.turns && s'.current == s.current && s'.currentOpen == s.currentOpen && s'.round == s.round
  }

  lemma PersistSameTurns(w: World, t: Id, closedIn: Option<RoundSnap>, damaged: seq<Id>, turnUp: bool, salvageUp: bool)
    ensures SameTurns(w.s, PersistClosedTurn(w, t, closedIn, damaged, turnUp, salvageUp).s)
  {
  }

  lemma AfterCloseSameTurns(w: World, res: Option<NextResult>, escapes: bool, turnUp: bool, endUp: bool)
    ensures SameTurns(w.s, AfterClose(w, res, escapes, turnUp, endUp).s)
  {
    if res.Some? && res.value.closedTurn.Some? {
      var t := res.value.closedTurn.value;
      PersistSameTurns(Touch(w, Some(t), escapes), t, res.value.closedRound, res.value.damaged, turnUp, endUp);
    }
  }

  lemma TailSameTurns(w: World, res: Option<NextResult>, err: bool, moves: bool, endUp: bool)
    requires !err ==> res.Some?
    ensures SameTurns(w.s, OpenedOrEnded(w, res, err, moves, endUp).s)
  {
  }

  lemma {:induction false} CancelSameTurns(w: World, sc: SceneSnap, rd: RoundSnap, persisted: bool,
      acts: seq<Cancelling>)
    ensures SameTurns(w.s, WriteAllCancelled(w, sc, rd, persisted, acts).s)
  {
    if acts != [] { CancelSameTurns(w, sc, rd, persisted, acts[..|acts| - 1]); }
  }

  lemma OpenNextSameTurns(w: World, c: Command)
    requires c.OpenNext?
    ensures SameTurns(OpenNextOutcome(w.s, c.pick, c.hits, c.canClose, c.at).0, DoOpenNext(w, c).s)
  {
    var (s, res, err) := OpenNextOutcome(w.s, c.pick, c.hits, c.canClose, c.at);
    var w1 := NoteClosed(w.(s := s), ClosedTurn(w.s));
    AfterCloseSameTurns(w1, res, c.escapes, c.turnUp, c.endUp);
    TailSameTurns(AfterClose(w1, res, c.escapes, c.turnUp, c.endUp), res, err, c.moves, c.endUp);
  }

  lemma PullSameTurns(w: World, c: Command)
    requires c.Pull?
    ensures SameTurns(PullOutcome(w.s, c.blocked, c.found, c.hits).0, DoPull(w, c).s)
  {
    var (s, res, err) := PullOutcome(w.s, c.blocked, c.found, c.hits);
    var w1 := if c.blocked then w.(s := s) else NoteClosed(w.(s := s), ClosedTurn(w.s));
    AfterCloseSameTurns(w1, res, c.escapes, c.turnUp, false);
    TailSameTurns(AfterClose(w1, res, c.escapes, c.turnUp, false), res, err, c.moves, false);
  }

  lemma CloseTurnSameTurns(w: World, c: Command)
    requires c.CloseTurn?
    ensures SameTurns(CloseOutcome(w.s, c.confirm, c.awaiting, c.hits).0, DoCloseTurn(w, c).s)
  {
    var (s, res, err) := CloseOutcome(w.s, c.confirm, c.awaiting, c.hits);
    if !err && !res.value.refused && res.value.closedTurn.Some? {
      var t := res.value.closedTurn;
      PersistSameTurns(Touch(NoteClosed(w.(s := s), t), t, c.escapes), t.value, None, res.value.damaged, c.turnUp,
        false);
    }
  }

  lemma ChangeModeSameTurns(w: World, c: Command)
    requires c.ChangeMode?
    ensures SameTurns(w.s, DoChangeMode(w, c).s)
  {
  }

  lemma MasterActionSameTurns(w: World, c: Command)
    requires c.MasterAction?
    ensures SameTurns(w.s, DoMasterAction(w, c).s)
  {
    RecordMasterSameTurns(PersistBoardOutsideTurn(Touch(w, OpenTurn(w.s), c.touches), c.boardUp), c.ensureUp,
      c.insertUp);
  }

  lemma RecordMasterSameTurns(w: World, ensureUp: bool, insertUp: bool)
    ensures SameTurns(w.s, RecordMaster(w, ensureUp, insertUp).s)
  {
    if OpenTurn(w.s).None? { RecordMasterBetween(w, ensureUp, insertUp); }
  }

  // ---------------------------------------------------------------- where the end goes

  /** The end of a round is on disk, with its own mode and finish, and its successor is a row. */
  predicate EndWritten(w: World, closed: RoundSnap) {
    && closed.id in w.disk.rounds && w.disk.rounds[closed.id].mode == closed.mode
    && w.disk.rounds[closed.id].finished == closed.finished
    && w.ends == [] && w.s.roundPersisted
    && w.s.round in w.disk.rounds && w.disk.rounds[w.s.round].mode == w.s.mode
  }

  lemma CloseWritesEnd(d: Disk, ends: seq<RoundEnd>, sc: SceneSnap, closed: RoundSnap, next: RoundSnap)
    requires ValidEnds(ends) && closed.id !in EndIds(ends) && next.id != closed.id
    requires closed.id in d.rounds ==> d.rounds[closed.id].finished.None?
    ensures var rows := RoundClose(d, ends + [RoundEnd(sc, closed)], sc, next).rounds;
      && closed.id in rows && rows[closed.id].finished == closed.finished && rows[closed.id].mode == closed.mode
      && next.id in rows && rows[next.id].mode == next.mode
  {
    WriteEndsRows(d, ends);
    assert (ends + [RoundEnd(sc, closed)])[..|ends|] == ends;
  }

  /** closed has just ended in memory, and no write has carried its end yet. */
  ghost predicate JustEnded(w: World, closed: RoundSnap) {
    && closed.finished.Some? && closed.id != w.s.round && !w.s.roundPersisted
    && ValidEnds(w.ends) && closed.id !in EndIds(w.ends)
    && (closed.id in w.disk.rounds ==> w.disk.rounds[closed.id].finished.None?)
  }

  /** What became of it. Either one committed call carried the end and it is on disk, or none did: then
      it is not on disk and waits. */
  ghost predicate EndSettled(w: World, closed: RoundSnap, up: bool) {
    if up then EndWritten(w, closed)
    else
      && closed.id in EndIds(w.ends) && !w.s.roundPersisted
      && (closed.id in w.disk.rounds ==> w.disk.rounds[closed.id].finished.None?)
  }

  /** The PersistRoundClose call of the end's own, carrying every end that waited before it. */
  function OwnCall(w: World, closed: RoundSnap, up: bool): RoundCloseCall {
    RoundCloseCall(w.ends + [RoundEnd(w.s.SceneNow(), closed)], w.s.RoundNow(), up)
  }

  lemma OwnCloseEnd(w: World, closed: RoundSnap, up: bool)
    requires JustEnded(w, closed)
    ensures var w' := WriteRoundClose(w, w.s.SceneNow(), closed, w.s.RoundNow(), up);
      EndSettled(w', closed, up) && w'.closes == w.closes + [OwnCall(w, closed, up)]
  {
    var end := RoundEnd(w.s.SceneNow(), closed);
    EndsGrow(w.ends, end);
    if up {
      WithoutAll(w.ends, EndIds(w.ends + [end]));
      CloseWritesEnd(w.disk, w.ends, w.s.SceneNow(), closed, w.s.RoundNow());
    }
  }

  lemma TurnCloseEnd(w: World, t: Id, closed: RoundSnap, damaged: seq<Id>, turnUp: bool, salvageUp: bool)
    requires JustEnded(w, closed) && t !in w.disk.turns
    ensures var w' := PersistClosedTurn(w, t, Some(closed), damaged, turnUp, salvageUp);
      && EndSettled(w', closed, turnUp || salvageUp)
      && w'.closes == w.closes + (if turnUp then [] else [OwnCall(w, closed, salvageUp)])
      && w'.log.attempts == w.log.attempts + [CloseData(w, t, Some(closed), damaged)]
      && CloseData(w, t, Some(closed), damaged).next.Some? && CloseData(w, t, Some(closed), damaged).round == closed
  {
    var data := CloseData(w, t, Some(closed), damaged);
    if turnUp {
      TurnTxPairs(w.disk, data);
      WithoutAll(w.ends, EndIds(w.ends));
      CloseWritesEnd(w.disk, w.ends, w.s.SceneNow(), closed, w.s.RoundNow());
    } else {
      var lost := w.(pending := w.pending - {t}, unwritten := SheetsToWrite(w, damaged),
                     log := w.log.(attempts := w.log.attempts + [data]));
      OwnCloseEnd(lost, closed, salvageUp);
    }
  }

  lemma JustEndedBy(w: World, c: Command, orphans: set<Id>)
    requires c.OpenNext? && RoundInv(RoundsOf(w), orphans) && Counted(w.s)
    ensures var (s, res, err) := OpenNextOutcome(w.s, c.pick, c.hits, c.canClose, c.at);
      s.round != w.s.round ==>
        && !err && res.Some? && res.value.closedRound == Some(RoundSnap(w.s.round, w.s.mode, Some(c.at)))
        && JustEnded(NoteClosed(w.(s := s), ClosedTurn(w.s)), res.value.closedRound.value)
        && w.s.turns > 0 && !s.HasOpenTurn()
        && res.value.closedTurn == OpenTurn(w.s)
  {
  }

  /** The calls that carried the end of round r in the step from w to w': a turn's transaction that named
      it as the round it closed, and the PersistRoundClose calls that had it among their ends. */
  ghost predicate CarriedByTurn(w: World, w': World, r: Id) {
    && |w'.log.attempts| == |w.log.attempts| + 1 && w'.log.attempts[..|w.log.attempts|] == w.log.attempts
    && var data := w'.log.attempts[|w.log.attempts|];
       data.next.Some? && data.round.id == r && data.turn in w'.disk.turns
  }

  ghost predicate CarriedByItsOwn(w: World, w': World, r: Id) {
    && |w'.closes| == |w.closes| + 1 && w'.closes[..|w.closes|] == w.closes
    && var call := w'.closes[|w.closes|]; call.committed && r in EndIds(call.ends)
  }

  lemma OpenNextEnds(w: World, c: Command, orphans: set<Id>)
    requires c.OpenNext? && RoundInv(RoundsOf(w), orphans) && Counted(w.s)
    requires w.s.HasOpenTurn() ==> w.s.current.value !in w.disk.turns
    ensures var w' := DoOpenNext(w, c);
      var closed := RoundSnap(w.s.round, w.s.mode, Some(c.at));
      var byTurn := w.s.HasOpenTurn() && c.turnUp;
      w'.s.round != w.s.round ==>
        && w.s.turns > 0 && !w'.s.HasOpenTurn()
        && EndSettled(w', closed, byTurn || c.endUp)
        && (CarriedByTurn(w, w', w.s.round) <==> byTurn)
        && (CarriedByItsOwn(w, w', w.s.round) <==> !byTurn && c.endUp)
        && (byTurn ==> w'.closes == w.closes)
  {
    var (s, res, err) := OpenNextOutcome(w.s, c.pick, c.hits, c.canClose, c.at);
    var w1 := NoteClosed(w.(s := s), ClosedTurn(w.s));
    OpenNextSameTurns(w, c);
    JustEndedBy(w, c, orphans);
    if s.round != w.s.round {
      var closed := res.value.closedRound.value;
      if w.s.HasOpenTurn() {
        EndWithItsTurn(w, w1, c, res.value.damaged, closed);
      } else {
        EndAlone(w, w1, c, closed);
      }
    }
  }

  lemma EndAlone(w: World, w1: World, c: Command, closed: RoundSnap)
    requires c.OpenNext? && JustEnded(w1, closed) && SameLogs(w, w1)
    ensures var w' := WriteRoundClose(w1, w1.s.SceneNow(), closed, w1.s.RoundNow(), c.endUp);
      && EndSettled(w', closed, c.endUp)
      && !CarriedByTurn(w, w', closed.id)
      && (CarriedByItsOwn(w, w', closed.id) <==> c.endUp)
  {
    EndsGrow(w1.ends, RoundEnd(w1.s.SceneNow(), closed));
    OwnCloseEnd(w1, closed, c.endUp);
  }

  /** The command's log and calls, whatever the memory it wrote from. */
  predicate SameLogs(w: World, w1: World) { w1.log.attempts == w.log.attempts && w1.closes == w.closes }

  lemma EndWithItsTurn(w: World, w1: World, c: Command, damaged: seq<Id>, closed: RoundSnap)
    requires c.OpenNext? && w.s.HasOpenTurn() && JustEnded(w1, closed) && w.s.current.value !in w1.disk.turns
    requires SameLogs(w, w1)
    ensures var w' := PersistClosedTurn(
        Touch(w1, w.s.current, c.escapes), w.s.current.value, Some(closed), damaged, c.turnUp, c.endUp);
      && EndSettled(w', closed, c.turnUp || c.endUp)
      && (CarriedByTurn(w, w', closed.id) <==> c.turnUp)
      && (CarriedByItsOwn(w, w', closed.id) <==> !c.turnUp && c.endUp)
      && (c.turnUp ==> w'.closes == w.closes)
  {
    var w2 := Touch(w1, w.s.current, c.escapes);
    var w' := PersistClosedTurn(w2, w.s.current.value, Some(closed), damaged, c.turnUp, c.endUp);
    TurnCloseEnd(w2, w.s.current.value, closed, damaged, c.turnUp, c.endUp);
    PersistTurnCommits(w2, w.s.current.value, closed, damaged, c.turnUp, c.endUp);
    OneCarrier(w, w', CloseData(w2, w.s.current.value, Some(closed), damaged), OwnCall(w2, closed, c.endUp), w2.ends,
      closed, c.turnUp, c.endUp);
  }

  lemma OneCarrier(
    w: World, w': World, data: TurnClose, call: RoundCloseCall, ends: seq<RoundEnd>, closed: RoundSnap, turnUp: bool,
      endUp: bool)
    requires data.next.Some? && data.round == closed && (data.turn in w'.disk.turns <==> turnUp)
    requires w'.log.attempts == w.log.attempts + [data] && w'.closes == w.closes + (if turnUp then [] else [call])
    requires call.committed == endUp && |call.ends| == |ends| + 1 && call.ends[|ends|].round == closed
    ensures (CarriedByTurn(w, w', closed.id) <==> turnUp) && (CarriedByItsOwn(w, w', closed.id) <==> !turnUp && endUp)
  {
    assert closed.id in EndIds(call.ends);
    assert w'.log.attempts[..|w.log.attempts|] == w.log.attempts;
    if !turnUp { assert w'.closes[..|w.closes|] == w.closes; }
  }

  lemma PersistTurnCommits(w: World, t: Id, closed: RoundSnap, damaged: seq<Id>, turnUp: bool, salvageUp: bool)
    requires JustEnded(w, closed) && t !in w.disk.turns
    ensures t in PersistClosedTurn(w, t, Some(closed), damaged, turnUp, salvageUp).disk.turns <==> turnUp
  {
    PersistLive(w, t, Some(closed), damaged, turnUp, salvageUp);
    var w' := PersistClosedTurn(w, t, Some(closed), damaged, turnUp, salvageUp);
    assert t in w'.disk.turns <==> t in LiveOf(w').turns;
  }
}
