/** The open-round invariant over every run of commands, any write failing, restarts included.
    Granularity: commands. */
module RoundRuns {
  import opened Prelude
  import opened Store
  import opened Session
  import opened RoomSpec
  import opened RoundInvariant

  // ---------------------------------------------------------------- what each routine does to the rounds

  /** An end is remembered once, last, and one already waiting stays where it is: no round waits twice. */
  lemma MarkedOnce(ends: seq<RoundEnd>, end: RoundEnd)
    requires forall i, j :: 0 <= i < j < |ends| ==> ends[i].round.id != ends[j].round.id
    ensures var now := MarkEnd(ends, end);
      && ends <= now && EndIds(now) == EndIds(ends) + {end.round.id}
      && (forall i, j :: 0 <= i < j < |now| ==> now[i].round.id != now[j].round.id)
  {
    EndsGrow(ends, end);
  }

  /** Forgetting drops the ends of the rounds in done and no other, and moves none. */
  lemma {:induction false} WithoutSplits(a: seq<RoundEnd>, b: seq<RoundEnd>, done: set<Id>)
    ensures Without(a + b, done) == Without(a, done) + Without(b, done)
    ensures |a| == 1 ==> Without(a, done) == if a[0].round.id in done then [] else a
  {
    if b == [] {
      assert a + b == a;
      if |a| == 1 { assert a[..0] == []; }
    } else {
      WithoutSplits(a, b[..|b| - 1], done);
      assert (a + b)[..|a + b| - 1] == a + b[..|b| - 1];
    }
  }

  lemma {:induction false} WithoutAll(ends: seq<RoundEnd>, done: set<Id>)
    requires EndIds(ends) <= done
    ensures Without(ends, done) == []
  {
    if ends != [] {
      var init, last := ends[..|ends| - 1], ends[|ends| - 1];
      EndsGrow(init, last);
      assert ends == init + [last];
      WithoutAll(init, done);
    }
  }

  /** The rounds of w once a round that ended in this command, if any, counts as a waiting end. */
  function Pending(w: World, closedIn: Option<RoundSnap>): Rounds {
    if closedIn.Some?
    then RoundsOf(w).(ends := w.ends + [RoundEnd(w.s.SceneNow(), closedIn.value)])
    else RoundsOf(w)
  }

  lemma EnsureRowsRounds(w: World, up: bool, orphans: set<Id>)
    requires RoundInv(RoundsOf(w), orphans)
    ensures RoundInv(RoundsOf(EnsureRows(w, w.s.SceneNow(), w.s.RoundNow(), up)), orphans)
    ensures up ==> EnsureOk(w, up) && EnsureRows(w, w.s.SceneNow(), w.s.RoundNow(), up).s.roundPersisted
  {
    WithoutAll(w.ends, EndIds(w.ends));
    if up {
      SettledHasShape(RoundsOf(w), w.disk, w.s.mode, orphans);
    }
  }

  lemma FreshEnd(w: World, end: RoundEnd)
    requires EndsSound(RoundsOf(w).(ends := w.ends + [end]))
    ensures end.round.id !in EndIds(w.ends)
  {
    var ends := w.ends + [end];
    forall i | 0 <= i < |w.ends| ensures w.ends[i].round.id != end.round.id {
      assert ends[i] == w.ends[i] && ends[|w.ends|] == end;
    }
  }

  lemma WriteRoundCloseRounds(w: World, closed: RoundSnap, up: bool, orphans: set<Id>)
    requires RoundInv(Pending(w, Some(closed)), orphans)
    ensures RoundInv(RoundsOf(WriteRoundClose(w, w.s.SceneNow(), closed, w.s.RoundNow(), up)), orphans)
  {
    var end := RoundEnd(w.s.SceneNow(), closed);
    var x := Pending(w, Some(closed));
    FreshEnd(w, end);
    if up {
      EndsGrow(w.ends, end);
      WithoutAll(w.ends, EndIds(x.ends));
      SettledHasShape(x, w.disk, w.s.mode, orphans);
      assert RoundsOf(WriteRoundClose(w, w.s.SceneNow(), closed, w.s.RoundNow(), up)) == Settled(x, w.disk, w.s.mode);
    } else {
      assert RoundsOf(WriteRoundClose(w, w.s.SceneNow(), closed, w.s.RoundNow(), up)) == x;
    }
  }

  /** The turn's transaction writes exactly the pairs a round close would. */
  lemma TurnTxPairs(d: Disk, t: TurnClose)
    ensures var all := if t.next.Some? then t.ends + [RoundEnd(t.scene, t.round)] else t.ends;
      var active := if t.next.Some? then t.next.value else t.round;
      && TurnTx(d, t).scenes == RoundClose(d, all, t.scene, active).scenes
      && TurnTx(d, t).rounds == RoundClose(d, all, t.scene, active).rounds
  {
  }

  lemma PersistClosedTurnRounds(
    w: World, t: Id, closedIn: Option<RoundSnap>, damaged: seq<Id>, turnUp: bool, salvageUp: bool, orphans: set<Id>)
    requires RoundInv(Pending(w, closedIn), orphans)
    requires closedIn.Some? ==> closedIn.value.id != w.s.round
    ensures RoundInv(RoundsOf(PersistClosedTurn(w, t, closedIn, damaged, turnUp, salvageUp)), orphans)
  {
    var data := CloseData(w, t, closedIn, damaged);
    var x := Pending(w, closedIn);
    if turnUp && TurnAcceptable(w.disk, data) {
      TurnTxPairs(w.disk, data);
      WithoutAll(w.ends, EndIds(w.ends));
      SettledHasShape(x, w.disk, w.s.mode, orphans);
    } else if data.next.Some? {
      var lost := w.(pending := w.pending - {t}, unwritten := SheetsToWrite(w, damaged),
                     log := w.log.(attempts := w.log.attempts + [data]));
      WriteRoundCloseRounds(lost, closedIn.value, salvageUp, orphans);
    }
  }

  // ---------------------------------------------------------------- commands

  lemma TouchRounds(w: World, t: Option<Id>, touches: bool, closedIn: Option<RoundSnap>, orphans: set<Id>)
    requires RoundInv(Pending(w, closedIn), orphans)
    ensures RoundInv(Pending(Touch(w, t, touches), closedIn), orphans)
  {
  }

  /** The part the three verbs share: the closed turn's own transaction and, when the round ended with
      no turn to carry it, the round's. */
  lemma AfterCloseRounds(
    w: World, res: Option<NextResult>, escapes: bool, turnUp: bool, endUp: bool, orphans: set<Id>)
    requires var closedIn := if res.Some? then res.value.closedRound else None;
      && RoundInv(Pending(w, closedIn), orphans)
      && (closedIn.Some? ==> closedIn.value.id != w.s.round)
    ensures RoundInv(Pending(AfterClose(w, res, escapes, turnUp, endUp),
      if res.Some? && res.value.closedTurn.None? then res.value.closedRound else None), orphans)
  {
    if res.Some? && res.value.closedTurn.Some? {
      var t := res.value.closedTurn.value;
      TouchRounds(w, Some(t), escapes, res.value.closedRound, orphans);
      PersistClosedTurnRounds(Touch(w, Some(t), escapes), t, res.value.closedRound, res.value.damaged, turnUp, endUp,
        orphans);
    }
  }

  lemma AnnounceRounds(w: World, res: Option<NextResult>, moves: bool, orphans: set<Id>)
    requires RoundInv(RoundsOf(w), orphans)
    ensures RoundInv(RoundsOf(AnnounceOpened(w, res, moves)), orphans)
  {
  }

  lemma RoundOverRounds(w: World, w1: World, closed: RoundSnap, orphans: set<Id>)
    requires RoundInv(RoundsOf(w), orphans) && closed.id == w.s.round && closed.finished.Some?
    requires RoundsOf(w1) == RoundsOf(w).(round := w.s.nextId, roundPersisted := false, nextId := w.s.nextId + 1)
    requires w1.ends == w.ends
    ensures RoundInv(Pending(w1, Some(closed)), orphans) && closed.id != w1.s.round
  {
    HandoverKeeps(RoundsOf(w), Pending(w1, Some(closed)), RoundEnd(w.s.SceneNow(), closed), orphans);
  }

  lemma LaterRounds(w: World, w1: World, orphans: set<Id>)
    requires RoundInv(RoundsOf(w), orphans) && w.s.nextId <= w1.s.nextId
    requires RoundsOf(w1) == RoundsOf(w).(nextId := w1.s.nextId)
    ensures RoundInv(RoundsOf(w1), orphans)
  {
  }

  lemma MovedRounds(w: World, s: SessionState, res: Option<NextResult>, err: bool, at: Time, w1: World,
      orphans: set<Id>)
    requires RoundInv(RoundsOf(w), orphans) && RoundsMoved(w.s, res, err, s, at)
    requires w1.s == s && w1.disk == w.disk && w1.ends == w.ends
    ensures var closedIn := if res.Some? then res.value.closedRound else None;
      RoundInv(Pending(w1, closedIn), orphans) && (closedIn.Some? ==> closedIn.value.id != s.round)
  {
    if res.Some? && res.value.closedRound.Some? {
      RoundOverRounds(w, w1, res.value.closedRound.value, orphans);
    } else {
      LaterRounds(w, w1, orphans);
    }
  }

  lemma OpenNextMemory(w: World, c: Command, orphans: set<Id>)
    requires c.OpenNext? && RoundInv(RoundsOf(w), orphans)
    ensures var (s, res, err) := OpenNextOutcome(w.s, c.pick, c.hits, c.canClose, c.at);
      var closedIn := if res.Some? then res.value.closedRound else None;
      && RoundInv(Pending(NoteClosed(w.(s := s), ClosedTurn(w.s)), closedIn), orphans)
      && (closedIn.Some? ==> closedIn.value.id != s.round)
      && (err && res.Some? ==> closedIn.None?)
  {
    var (s, res, err) := OpenNextOutcome(w.s, c.pick, c.hits, c.canClose, c.at);
    OpenNextMovesRounds(w.s, c.pick, c.hits, c.canClose, c.at);
    MovedRounds(w, s, res, err, c.at, NoteClosed(w.(s := s), ClosedTurn(w.s)), orphans);
  }

  lemma TailRounds(w: World, res: Option<NextResult>, err: bool, moves: bool, endUp: bool, orphans: set<Id>)
    requires !err ==> res.Some?
    requires err && res.Some? ==> res.value.closedRound.None?
    requires RoundInv(Pending(w, if res.Some? && res.value.closedTurn.None? then res.value.closedRound else None),
      orphans)
    ensures RoundInv(RoundsOf(OpenedOrEnded(w, res, err, moves, endUp)), orphans)
  {
    if !err && res.value.closedRound.Some? && res.value.closedTurn.None? {
      WriteRoundCloseRounds(w, res.value.closedRound.value, endUp, orphans);
    } else if !err && res.value.closedRound.None? {
      AnnounceRounds(w, res, moves, orphans);
    }
  }

  lemma VerbRounds(
    w: World, res: Option<NextResult>, err: bool, escapes: bool, moves: bool, turnUp: bool, endUp: bool,
      orphans: set<Id>)
    requires !err ==> res.Some?
    requires err && res.Some? ==> res.value.closedRound.None?
    requires var closedIn := if res.Some? then res.value.closedRound else None;
      && RoundInv(Pending(w, closedIn), orphans)
      && (closedIn.Some? ==> closedIn.value.id != w.s.round)
    ensures RoundInv(RoundsOf(OpenedOrEnded(AfterClose(w, res, escapes, turnUp, endUp), res, err, moves, endUp)),
      orphans)
  {
    AfterCloseRounds(w, res, escapes, turnUp, endUp, orphans);
    TailRounds(AfterClose(w, res, escapes, turnUp, endUp), res, err, moves, endUp, orphans);
  }

  lemma OpenNextRounds(w: World, c: Command, orphans: set<Id>)
    requires c.OpenNext? && RoundInv(RoundsOf(w), orphans)
    ensures RoundInv(RoundsOf(DoOpenNext(w, c)), orphans)
  {
    var (s, res, err) := OpenNextOutcome(w.s, c.pick, c.hits, c.canClose, c.at);
    OpenNextMemory(w, c, orphans);
    var w1 := NoteClosed(w.(s := s), ClosedTurn(w.s));
    VerbRounds(w1, res, err, c.escapes, c.moves, c.turnUp, c.endUp, orphans);
  }

  lemma PullMemory(w: World, c: Command, orphans: set<Id>)
    requires c.Pull? && RoundInv(RoundsOf(w), orphans)
    ensures var s := PullOutcome(w.s, c.blocked, c.found, c.hits).0;
      RoundInv(RoundsOf(if c.blocked then w.(s := s) else NoteClosed(w.(s := s), ClosedTurn(w.s))), orphans)
  {
    var (s, res, err) := PullOutcome(w.s, c.blocked, c.found, c.hits);
    var w1 := if c.blocked then w.(s := s) else NoteClosed(w.(s := s), ClosedTurn(w.s));
    Later(RoundsOf(w), s.nextId, orphans);
    assert RoundsOf(w1) == RoundsOf(w).(nextId := s.nextId);
  }

  lemma PullRounds(w: World, c: Command, orphans: set<Id>)
    requires c.Pull? && RoundInv(RoundsOf(w), orphans)
    ensures RoundInv(RoundsOf(DoPull(w, c)), orphans)
  {
    var (s, res, err) := PullOutcome(w.s, c.blocked, c.found, c.hits);
    var w1 := if c.blocked then w.(s := s) else NoteClosed(w.(s := s), ClosedTurn(w.s));
    PullMemory(w, c, orphans);
    VerbRounds(w1, res, err, c.escapes, c.moves, c.turnUp, false, orphans);
  }

  lemma PersistTouchedRounds(w: World, t: Id, escapes: bool, damaged: seq<Id>, turnUp: bool, orphans: set<Id>)
    requires RoundInv(RoundsOf(w), orphans)
    ensures RoundInv(RoundsOf(PersistClosedTurn(Touch(w, Some(t), escapes), t, None, damaged, turnUp, false)), orphans)
  {
    TouchRounds(w, Some(t), escapes, None, orphans);
    PersistClosedTurnRounds(Touch(w, Some(t), escapes), t, None, damaged, turnUp, false, orphans);
  }

  lemma CloseTurnRounds(w: World, c: Command, orphans: set<Id>)
    requires c.CloseTurn? && RoundInv(RoundsOf(w), orphans)
    ensures RoundInv(RoundsOf(DoCloseTurn(w, c)), orphans)
  {
    var (s, res, err) := CloseOutcome(w.s, c.confirm, c.awaiting, c.hits);
    assert RoundsOf(w.(s := s)) == RoundsOf(w);
    if !err && !res.value.refused && res.value.closedTurn.Some? {
      var t := res.value.closedTurn;
      var w1 := NoteClosed(w.(s := s), t);
      assert RoundsOf(w1) == RoundsOf(w);
      PersistTouchedRounds(w1, t.value, c.escapes, res.value.damaged, c.turnUp, orphans);
    }
  }

  lemma ChangeSceneMemory(w: World, closed: bool, at: Time, orphans: set<Id>)
    requires RoundInv(RoundsOf(w), orphans) && (closed ==> w.s.scenePersisted)
    ensures var end := RoundEnd(SceneSnap(w.s.scene, Some(at)), RoundSnap(w.s.round, w.s.mode, Some(at)));
      var w1 := w.(s := SceneChanged(w.s));
      RoundInv(RoundsOf(if closed then w1.(disk := ClosePair(w1.disk, w.s.scene, w.s.round, at))
        else w1.(ends := MarkEnd(w1.ends, end))), orphans)
  {
    var end := RoundEnd(SceneSnap(w.s.scene, Some(at)), RoundSnap(w.s.round, w.s.mode, Some(at)));
    var w1 := w.(s := SceneChanged(w.s));
    var x := RoundsOf(w);
    if closed {
      SceneClosedKeeps(x, w.disk, at, orphans);
      assert RoundsOf(w1.(disk := ClosePair(w1.disk, w.s.scene, w.s.round, at))) == SceneClosed(x, w.disk, at);
    } else {
      var y := RoundsOf(w1.(ends := w.ends + [end]));
      HandoverKeeps(x, y, end, orphans);
    }
  }

  lemma ChangeSceneRounds(w: World, c: Command, orphans: set<Id>)
    requires c.ChangeScene? && RoundInv(RoundsOf(w), orphans)
    ensures RoundInv(RoundsOf(DoChangeScene(w, c)), orphans)
  {
    if !w.s.HasOpenTurn() {
      var end := RoundEnd(SceneSnap(w.s.scene, Some(c.at)), RoundSnap(w.s.round, w.s.mode, Some(c.at)));
      var w1 := w.(s := SceneChanged(w.s));
      ChangeSceneMemory(w, w.s.scenePersisted && c.closeUp, c.at, orphans);
      EnsureRowsRounds(
        if !w.s.scenePersisted || !c.closeUp then w1.(ends := MarkEnd(w1.ends, end))
        else w1.(disk := ClosePair(w1.disk, w.s.scene, w.s.round, c.at)), c.birthUp, orphans);
    }
  }

  lemma MasterRowRounds(w: World, rec: Record, up: bool)
    ensures RoundsOf(MasterRow(w, rec, up)) == RoundsOf(w)
  {
  }

  lemma RecordMasterWrites(w: World, ensureUp: bool, insertUp: bool)
    ensures RoundsOf(RecordMaster(w, ensureUp, insertUp)) ==
      if OpenTurn(w.s).Some? then RoundsOf(w).(nextId := w.s.nextId + 1) else RoundsOf(RecordReady(w, ensureUp))
  {
    if OpenTurn(w.s).None? {
      RecordMasterBetween(w, ensureUp, insertUp);
      MasterRowRounds(RecordReady(w, ensureUp), Record(w.s.nextId, w.s.scene, w.s.round, None),
        RowTried(w, ensureUp, insertUp));
    }
  }

  lemma EnsureActiveRounds(w: World, up: bool, orphans: set<Id>)
    requires RoundInv(RoundsOf(w), orphans)
    ensures RoundInv(RoundsOf(EnsureActive(w, up)), orphans)
  {
    if !w.s.roundPersisted { EnsureRowsRounds(w, up, orphans); }
  }

  lemma NextIdRounds(w: World, orphans: set<Id>)
    requires RoundInv(RoundsOf(w), orphans)
    ensures RoundInv(RoundsOf(w.(s := w.s.(nextId := w.s.nextId + 1))), orphans)
  {
    LaterRounds(w, w.(s := w.s.(nextId := w.s.nextId + 1)), orphans);
  }

  lemma RecordReadyRounds(w: World, ensureUp: bool, orphans: set<Id>)
    requires RoundInv(RoundsOf(w), orphans)
    ensures RoundInv(RoundsOf(RecordReady(w, ensureUp)), orphans)
  {
    NextIdRounds(w, orphans);
    var w1 := w.(s := w.s.(nextId := w.s.nextId + 1));
    assert RecordReady(w, ensureUp) == EnsureActive(w1, ensureUp);
    ReadyFrom(w1, ensureUp, RecordReady(w, ensureUp), orphans);
  }

  lemma ReadyFrom(w: World, up: bool, w': World, orphans: set<Id>)
    requires RoundInv(RoundsOf(w), orphans) && w' == EnsureActive(w, up)
    ensures RoundInv(RoundsOf(w'), orphans)
  {
    EnsureActiveRounds(w, up, orphans);
  }

  lemma RecordMasterRounds(w: World, ensureUp: bool, insertUp: bool, orphans: set<Id>)
    requires RoundInv(RoundsOf(w), orphans)
    ensures RoundInv(RoundsOf(RecordMaster(w, ensureUp, insertUp)), orphans)
  {
    RecordMasterWrites(w, ensureUp, insertUp);
    if OpenTurn(w.s).Some? {
      Later(RoundsOf(w), w.s.nextId + 1, orphans);
    } else {
      RecordReadyRounds(w, ensureUp, orphans);
    }
  }

  lemma {:induction false} HoldAllRounds(w: World, t: Id, acts: seq<Cancelling>)
    ensures RoundsOf(HoldAll(w, t, acts)) == RoundsOf(w)
    ensures HoldAll(w, t, acts).s == w.s
  {
    if acts != [] { HoldAllRounds(w, t, acts[..|acts| - 1]); }
  }

  lemma {:induction false} WriteAllCancelledRounds(w: World, acts: seq<Cancelling>, orphans: set<Id>)
    requires RoundInv(RoundsOf(w), orphans)
    ensures var w' := WriteAllCancelled(w, w.s.SceneNow(), w.s.RoundNow(), w.s.roundPersisted, acts);
      && RoundInv(RoundsOf(w'), orphans)
      && w'.s == w.s.(scenePersisted := w'.s.scenePersisted, roundPersisted := w'.s.roundPersisted)
      && (w.s.roundPersisted ==> w'.s.roundPersisted)
  {
    if acts != [] {
      var last := acts[|acts| - 1];
      WriteAllCancelledRounds(w, acts[..|acts| - 1], orphans);
      var mid := WriteAllCancelled(w, w.s.SceneNow(), w.s.RoundNow(), w.s.roundPersisted, acts[..|acts| - 1]);
      EnsureRowsRounds(mid, last.ensureUp, orphans);
    }
  }

  /** The open rounds a restart can no longer account for: their scene is finished. */
  function Stranded(d: Disk): set<Id> {
    set r | r in d.rounds && d.rounds[r].finished.None?
            && d.rounds[r].scene in d.scenes && d.scenes[d.rounds[r].scene].Some?
  }

  /** The query finds the one open round of the one open scene, or there is no open scene. */
  lemma FindActiveFinds(x: Rounds, d: Disk, orphans: set<Id>)
    requires RoundInv(x, orphans) && d.scenes == x.scenes && d.rounds == x.rows
    ensures match FindActive(d)
      case Some(r) => x.Open(r) && x.OpenScene(x.rows[r].scene) && (forall s :: x.OpenScene(s) ==> s == x.rows[r].scene)
      case None => forall s :: !x.OpenScene(s)
  {
  }

  /** What a restart can and cannot account for: at most one open round lies outside finished scenes. */
  lemma StrandedShape(x: Rounds, d: Disk, orphans: set<Id>)
    requires RoundInv(x, orphans) && d.scenes == x.scenes && d.rounds == x.rows
    ensures forall r :: x.Open(r) && r !in Stranded(d) ==> x.OpenScene(x.rows[r].scene)
    ensures forall r, q :: x.Open(r) && x.Open(q) && x.rows[r].scene == x.rows[q].scene ==> r == q
    ensures forall r :: r in Stranded(d) ==> x.Open(r) && x.scenes[x.rows[r].scene].Some?
  {
  }

  lemma RebornKeepsOpen(y: Rounds, d: Disk)
    requires d.scenes == y.scenes && d.rounds == y.rows && y.ends == []
    requires forall s :: y.OpenScene(s) ==> s == y.scene && y.Open(y.round) && y.rows[y.round].scene == s
    requires forall r :: y.Open(r) && r !in Stranded(d) ==> y.OpenScene(y.rows[r].scene)
    requires forall r, q :: y.Open(r) && y.Open(q) && y.rows[r].scene == y.rows[q].scene ==> r == q
    ensures OpenAccounted(y, Stranded(d)) && ScenesAccounted(y)
  {
  }

  lemma RehydratedRounds(w: World, orphans: set<Id>)
    requires RoundInv(RoundsOf(w), orphans)
    ensures RoundInv(RoundsOf(w.(s := Rehydrated(w.disk, w.s.nextId), ends := [])), Stranded(w.disk))
  {
    var x, d := RoundsOf(w), w.disk;
    var y := RoundsOf(w.(s := Rehydrated(d, w.s.nextId), ends := []));
    FindActiveFinds(x, d, orphans);
    StrandedShape(x, d, orphans);
    RebornKeeps(x, y, d);
  }

  lemma RebornKeeps(x: Rounds, y: Rounds, d: Disk)
    requires IdsBelow(x) && d.scenes == x.scenes == y.scenes && d.rounds == x.rows == y.rows && y.ends == []
    requires match FindActive(d)
      case Some(r) =>
        && x.Open(r) && x.OpenScene(x.rows[r].scene) && (forall s :: x.OpenScene(s) ==> s == x.rows[r].scene)
        && y.round == r && y.scene == x.rows[r].scene && y.scenePersisted && y.roundPersisted && y.nextId == x.nextId
      case None =>
        && (forall s :: !x.OpenScene(s))
        && y.scene == x.nextId && y.round == x.nextId + 1 && !y.scenePersisted && !y.roundPersisted
        && y.nextId == x.nextId + 2
    requires forall r :: x.Open(r) && r !in Stranded(d) ==> x.OpenScene(x.rows[r].scene)
    requires forall r, q :: x.Open(r) && x.Open(q) && x.rows[r].scene == x.rows[q].scene ==> r == q
    requires forall r :: r in Stranded(d) ==> x.Open(r) && x.scenes[x.rows[r].scene].Some?
    ensures RoundInv(y, Stranded(d))
  {
    NoEnds(y);
    assert forall s :: y.OpenScene(s) <==> x.OpenScene(s);
    assert forall r :: y.Open(r) <==> x.Open(r);
    RebornKeepsOpen(y, d);
    assert OrphansApart(y, Stranded(d)) by {
      assert forall r :: r in Stranded(d) ==> r in x.rows && r < x.nextId && x.rows[r].scene < x.nextId;
    }
  }

  lemma RestartRounds(w: World, c: Command, orphans: set<Id>)
    requires c.Restart? && RoundInv(RoundsOf(w), orphans)
    ensures RoundInv(RoundsOf(Step(w, c)), Stranded(w.disk))
  {
    var born := w.(s := Rehydrated(w.disk, w.s.nextId), ends := [], unwritten := {}, pending := map[],
                   board := if w.disk.board.Some? then w.disk.board.value else []);
    RehydratedRounds(w, orphans);
    assert RoundsOf(born) == RoundsOf(w.(s := Rehydrated(w.disk, w.s.nextId), ends := []));
    EnsureRowsRounds(born, c.birthUp, Stranded(w.disk));
  }

  /** The orphans a command leaves: a restart is the only one that makes any. */
  function OrphansAfter(w: World, c: Command, orphans: set<Id>): set<Id> {
    if c.Restart? then Stranded(w.disk) else orphans
  }

  lemma ChangeModeRounds(w: World, c: Command, orphans: set<Id>)
    requires c.ChangeMode? && RoundInv(RoundsOf(w), orphans)
    ensures RoundInv(RoundsOf(DoChangeMode(w, c)), orphans)
  {
    var w1 := w.(s := w.s.(mode := c.mode));
    assert RoundsOf(w1) == RoundsOf(w);
    EnsureRowsRounds(w1, c.ensureUp, orphans);
  }

  lemma MasterActionRounds(w: World, c: Command, orphans: set<Id>)
    requires c.MasterAction? && RoundInv(RoundsOf(w), orphans)
    ensures RoundInv(RoundsOf(DoMasterAction(w, c)), orphans)
  {
    var w1 := PersistBoardOutsideTurn(Touch(w, OpenTurn(w.s), c.touches), c.boardUp);
    LaterRounds(w, w1, orphans);
    RecordMasterRounds(w1, c.ensureUp, c.insertUp, orphans);
  }

  lemma CancelRounds(w: World, acts: seq<Cancelling>, orphans: set<Id>)
    requires RoundInv(RoundsOf(w), orphans)
    ensures RoundInv(RoundsOf(Cancel(w, acts)), orphans)
  {
    if w.s.HasOpenTurn() {
      HoldAllRounds(w, w.s.current.value, acts);
    } else {
      WriteAllCancelledRounds(w, acts, orphans);
    }
  }

  lemma StepRounds(w: World, c: Command, orphans: set<Id>)
    requires RoundInv(RoundsOf(w), orphans)
    ensures RoundInv(RoundsOf(Step(w, c)), OrphansAfter(w, c, orphans))
  {
    match c {
      case OpenNext(_, _, _, _, _, _, _, _) => OpenNextRounds(w, c, orphans);
      case Pull(_, _, _, _, _, _) => PullRounds(w, c, orphans);
      case CloseTurn(_, _, _, _, _) => CloseTurnRounds(w, c, orphans);
      case ChangeScene(_, _, _) => ChangeSceneRounds(w, c, orphans);
      case ChangeMode(_, _, _) => ChangeModeRounds(w, c, orphans);
      case MasterAction(_, _, _, _) => MasterActionRounds(w, c, orphans);
      case CancelActions(acts) => CancelRounds(w, acts, orphans);
      case EditSheet(_, _) => assert RoundsOf(Step(w, c)) == RoundsOf(w);
      case Restart(_) => RestartRounds(w, c, orphans);
    }
  }

  lemma GenesisRounds(sheets: map<Id, Bars>, mapped: bool, birthUp: bool)
    ensures RoundInv(RoundsOf(Genesis(sheets, mapped, birthUp)), {})
  {
    var d := Disk(map[], map[], map[], sheets, [], [], [], None);
    var born := World(Rehydrated(d, 0), d, [], {}, map[], [], mapped, Log([], [], map[]), []);
    NoEnds(RoundsOf(born));
    assert RoundInv(RoundsOf(born), {});
    EnsureRowsRounds(born, birthUp, {});
  }

  // ---------------------------------------------------------------- runs

  ghost function RunOrphans(w: World, commands: seq<Command>): set<Id> {
    if commands == [] then {}
    else
      var before := commands[..|commands| - 1];
      OrphansAfter(Run(w, before), commands[|commands| - 1], RunOrphans(w, before))
  }

  lemma {:induction false} RunRounds(w: World, commands: seq<Command>)
    requires RoundInv(RoundsOf(w), {})
    ensures RoundInv(RoundsOf(Run(w, commands)), RunOrphans(w, commands))
  {
    if commands != [] {
      RunRounds(w, commands[..|commands| - 1]);
      StepRounds(Run(w, commands[..|commands| - 1]), commands[|commands| - 1],
        RunOrphans(w, commands[..|commands| - 1]));
    }
  }

  lemma {:induction false} NoRestartNoOrphans(w: World, commands: seq<Command>)
    requires forall i :: 0 <= i < |commands| ==> !commands[i].Restart?
    ensures RunOrphans(w, commands) == {}
  {
    if commands != [] { NoRestartNoOrphans(w, commands[..|commands| - 1]); }
  }

  /** Inside one room's life, whatever fails: every open round on disk is the active one or waits to be
      closed, at most one is open, and the persisted flag says exactly whether the active round is a row. */
  lemma OneLife(sheets: map<Id, Bars>, mapped: bool, birthUp: bool, commands: seq<Command>)
    requires forall i :: 0 <= i < |commands| ==> !commands[i].Restart?
    ensures var w := Run(Genesis(sheets, mapped, birthUp), commands);
      && (forall r :: OpenRound(w.disk, r) ==> r == w.s.round || r in EndIds(w.ends))
      && (forall r, q :: OpenRound(w.disk, r) && OpenRound(w.disk, q) ==> r == q)
      && (w.s.roundPersisted <==> w.s.round in w.disk.rounds)
      && (w.s.roundPersisted ==> OpenRound(w.disk, w.s.round) && w.ends == [])
  {
    GenesisRounds(sheets, mapped, birthUp);
    RunRounds(Genesis(sheets, mapped, birthUp), commands);
    NoRestartNoOrphans(Genesis(sheets, mapped, birthUp), commands);
    var x := RoundsOf(Run(Genesis(sheets, mapped, birthUp), commands));
    assert forall r :: OpenRound(Run(Genesis(sheets, mapped, birthUp), commands).disk, r) <==> x.Open(r);
  }

  /** Over any run, restarts included: no scene ever has two open rounds, at most one scene is open,
      an open round outside finished scenes is unique, and the query a restart resumes from finds it
      whenever a scene is open. */
  lemma AnyRun(sheets: map<Id, Bars>, mapped: bool, birthUp: bool, commands: seq<Command>)
    ensures var d := Run(Genesis(sheets, mapped, birthUp), commands).disk;
      && (forall r, q :: OpenRound(d, r) && OpenRound(d, q) && d.rounds[r].scene == d.rounds[q].scene ==> r == q)
      && (forall s, t :: OpenScene(d, s) && OpenScene(d, t) ==> s == t)
      && (forall s :: OpenScene(d, s) ==>
            FindActive(d).Some? && OpenRound(d, FindActive(d).value) && d.rounds[FindActive(d).value].scene == s)
  {
    var w := Run(Genesis(sheets, mapped, birthUp), commands);
    var orphans := RunOrphans(Genesis(sheets, mapped, birthUp), commands);
    GenesisRounds(sheets, mapped, birthUp);
    RunRounds(Genesis(sheets, mapped, birthUp), commands);
    OpenFacts(RoundsOf(w), w.disk, orphans);
  }

  lemma OpenFacts(x: Rounds, d: Disk, orphans: set<Id>)
    requires RoundInv(x, orphans) && d.scenes == x.scenes && d.rounds == x.rows
    ensures forall r, q :: OpenRound(d, r) && OpenRound(d, q) && d.rounds[r].scene == d.rounds[q].scene ==> r == q
    ensures forall s, t :: OpenScene(d, s) && OpenScene(d, t) ==> s == t
    ensures forall s :: OpenScene(d, s) ==>
      FindActive(d).Some? && OpenRound(d, FindActive(d).value) && d.rounds[FindActive(d).value].scene == s
  {
    StrandedShape(x, d, orphans);
    FindActiveFinds(x, d, orphans);
    assert forall r :: OpenRound(d, r) <==> x.Open(r);
    assert forall s :: OpenScene(d, s) <==> x.OpenScene(s);
  }

  /** What a restart strands, exactly: a round stays open and unaccounted for iff its scene's finish
      was written without its own. */
  lemma RestartStrands(w: World, birthUp: bool, orphans: set<Id>, r: Id)
    requires RoundInv(RoundsOf(w), orphans) && OpenRound(w.disk, r)
    ensures var w' := Step(w, Restart(birthUp));
      OpenRound(w'.disk, r) && r != w'.s.round && r !in EndIds(w'.ends)
      <==> !OpenScene(w.disk, w.disk.rounds[r].scene)
  {
    RestartRounds(w, Restart(birthUp), orphans);
    StrandedShape(RoundsOf(w), w.disk, orphans);
    FindActiveFinds(RoundsOf(w), w.disk, orphans);
    var w' := Step(w, Restart(birthUp));
    if OpenScene(w.disk, w.disk.rounds[r].scene) {
      assert w'.s.round == r;
    } else {
      assert r in Stranded(w.disk);
      assert RoundsOf(w').Open(r);
    }
  }
}
