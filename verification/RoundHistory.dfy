/** What a run does to the history of rounds: no finish ever moves, no row ever goes, and a round the
    room knew of stays known, but for one exact case. Granularity: commands. */
module RoundHistory {
  import opened Prelude
  import opened Store
  import opened Session
  import opened RoomSpec
  import opened RoundInvariant
  import opened RoundRuns

  /** The rounds that are rows, wait to be written, or are active. */
  function Known(x: Rounds): set<Id> { x.rows.Keys + EndIds(x.ends) + {x.round} }

  /** A finish, once on disk, is final, and rows are never re-parented or deleted. */
  ghost predicate FinishesStay(x: Rounds, y: Rounds) {
    && (forall r :: r in x.rows ==> r in y.rows && y.rows[r].scene == x.rows[r].scene)
    && (forall r :: r in x.rows && x.rows[r].finished.Some? ==> y.rows[r].finished == x.rows[r].finished)
    && (forall s :: s in x.scenes ==> s in y.scenes)
    && (forall s :: s in x.scenes && x.scenes[s].Some? ==> y.scenes[s] == x.scenes[s])
  }

  ghost predicate Follows(x: Rounds, y: Rounds, lost: set<Id>) {
    FinishesStay(x, y) && Known(x) - lost <= Known(y)
  }

  lemma FollowsOn(x: Rounds, y: Rounds, z: Rounds, lost: set<Id>)
    requires Follows(x, y, lost) && Follows(y, z, {})
    ensures Follows(x, z, lost)
  {
  }

  lemma TouchFollows(w: World, t: Option<Id>, touches: bool, closedIn: Option<RoundSnap>)
    ensures Follows(Pending(w, closedIn), Pending(Touch(w, t, touches), closedIn), {})
  {
  }

  lemma HandoverFollows(x: Rounds, y: Rounds, end: RoundEnd)
    requires y == x.(scene := y.scene, round := y.round, scenePersisted := y.scenePersisted,
      roundPersisted := y.roundPersisted, nextId := y.nextId, ends := x.ends + [end])
    requires end.round.id == x.round
    ensures Follows(x, y, {})
  {
    EndsGrow(x.ends, end);
  }

  /** The write of a set of ends with the active pair keeps everything. */
  lemma CloseFollows(x: Rounds, d: Disk, ends: seq<RoundEnd>, sc: SceneSnap, rd: RoundSnap, y: Rounds)
    requires d.scenes == x.scenes && d.rounds == x.rows && ValidEnds(ends)
    requires y.scenes == RoundClose(d, ends, sc, rd).scenes && y.rows == RoundClose(d, ends, sc, rd).rounds
    ensures FinishesStay(x, y)
    ensures y.rows.Keys == x.rows.Keys + EndIds(ends) + {rd.id}
  {
    WriteEndsRows(d, ends);
    WriteEndsScenes(d, ends);
  }

  lemma EnsureRowsFollows(w: World, sc: SceneSnap, rd: RoundSnap, up: bool)
    ensures Follows(RoundsOf(w), RoundsOf(EnsureRows(w, sc, rd, up)), {})
  {
    if EnsureOk(w, up) {
      CloseFollows(RoundsOf(w), w.disk, w.ends, sc, rd, RoundsOf(EnsureRows(w, sc, rd, up)));
    }
  }

  lemma WriteRoundCloseFollows(w: World, sc: SceneSnap, closed: RoundSnap, next: RoundSnap, up: bool)
    ensures var end := RoundEnd(sc, closed);
      Follows(RoundsOf(w).(ends := w.ends + [end]), RoundsOf(WriteRoundClose(w, sc, closed, next, up)), {})
  {
    var end := RoundEnd(sc, closed);
    var ends := w.ends + [end];
    EndsGrow(w.ends, end);
    if up && ValidEnds(ends) {
      CloseFollows(RoundsOf(w).(ends := ends), w.disk, ends, sc, next,
        RoundsOf(WriteRoundClose(w, sc, closed, next, up)));
    }
  }

  lemma PersistClosedTurnFollows(
    w: World, t: Id, closedIn: Option<RoundSnap>, damaged: seq<Id>, turnUp: bool, salvageUp: bool)
    requires closedIn.Some? ==> closedIn.value.id != w.s.round && closedIn.value.finished.Some?
    ensures Follows(Pending(w, closedIn), RoundsOf(PersistClosedTurn(w, t, closedIn, damaged, turnUp, salvageUp)), {})
  {
    var data := CloseData(w, t, closedIn, damaged);
    var x := Pending(w, closedIn);
    if closedIn.Some? { EndsGrow(w.ends, RoundEnd(w.s.SceneNow(), closedIn.value)); }
    if turnUp && TurnAcceptable(w.disk, data) {
      TurnTxPairs(w.disk, data);
      CloseFollows(x, w.disk, x.ends, w.s.SceneNow(), w.s.RoundNow(),
                   RoundsOf(PersistClosedTurn(w, t, closedIn, damaged, turnUp, salvageUp)));
    } else if data.next.Some? {
      var lost := w.(pending := w.pending - {t}, unwritten := SheetsToWrite(w, damaged),
                     log := w.log.(attempts := w.log.attempts + [data]));
      WriteRoundCloseFollows(lost, data.scene, closedIn.value, data.next.value, salvageUp);
    }
  }

  lemma AfterCloseFollows(x: Rounds, w: World, res: Option<NextResult>, escapes: bool, turnUp: bool, endUp: bool)
    requires var closedIn := if res.Some? then res.value.closedRound else None;
      && Follows(x, Pending(w, closedIn), {})
      && (closedIn.Some? ==> closedIn.value.id != w.s.round && closedIn.value.finished.Some?)
    ensures var closedIn := if res.Some? && res.value.closedTurn.None? then res.value.closedRound else None;
      Follows(x, Pending(AfterClose(w, res, escapes, turnUp, endUp), closedIn), {})
  {
    if res.Some? && res.value.closedTurn.Some? {
      var t, closedIn := res.value.closedTurn.value, res.value.closedRound;
      var touched := Touch(w, Some(t), escapes);
      TouchFollows(w, Some(t), escapes, closedIn);
      FollowsOn(x, Pending(w, closedIn), Pending(touched, closedIn), {});
      PersistClosedTurnFollows(touched, t, closedIn, res.value.damaged, turnUp, endUp);
      FollowsOn(x, Pending(touched, closedIn), RoundsOf(AfterClose(w, res, escapes, turnUp, endUp)), {});
    }
  }

  lemma AnnounceFollows(x: Rounds, w: World, res: Option<NextResult>, moves: bool)
    requires Follows(x, RoundsOf(w), {})
    ensures Follows(x, RoundsOf(AnnounceOpened(w, res, moves)), {})
  {
  }

  lemma MovedFollows(w: World, s: SessionState, res: Option<NextResult>, err: bool, at: Time, w1: World)
    requires RoundsMoved(w.s, res, err, s, at) && w.s.round < w.s.nextId
    requires w1.s == s && w1.disk == w.disk && w1.ends == w.ends
    ensures var closedIn := if res.Some? then res.value.closedRound else None;
      && Follows(RoundsOf(w), Pending(w1, closedIn), {})
      && (closedIn.Some? ==> closedIn.value.id != s.round && closedIn.value.finished.Some?)
  {
    var closedIn := if res.Some? then res.value.closedRound else None;
    if closedIn.Some? {
      HandoverFollows(RoundsOf(w), Pending(w1, closedIn), RoundEnd(w.s.SceneNow(), closedIn.value));
    }
  }

  lemma OpenNextMemoryFollows(w: World, c: Command)
    requires c.OpenNext? && w.s.round < w.s.nextId
    ensures var (s, res, err) := OpenNextOutcome(w.s, c.pick, c.hits, c.canClose, c.at);
      var closedIn := if res.Some? then res.value.closedRound else None;
      && Follows(RoundsOf(w), Pending(NoteClosed(w.(s := s), ClosedTurn(w.s)), closedIn), {})
      && (closedIn.Some? ==> closedIn.value.id != s.round && closedIn.value.finished.Some?)
      && (err && res.Some? ==> closedIn.None?)
  {
    var (s, res, err) := OpenNextOutcome(w.s, c.pick, c.hits, c.canClose, c.at);
    OpenNextMovesRounds(w.s, c.pick, c.hits, c.canClose, c.at);
    MovedFollows(w, s, res, err, c.at, NoteClosed(w.(s := s), ClosedTurn(w.s)));
  }

  lemma TailFollows(x: Rounds, w: World, res: Option<NextResult>, err: bool, moves: bool, endUp: bool)
    requires !err ==> res.Some?
    requires err && res.Some? ==> res.value.closedRound.None?
    requires Follows(x, Pending(w, if res.Some? && res.value.closedTurn.None? then res.value.closedRound else None), {})
    ensures Follows(x, RoundsOf(OpenedOrEnded(w, res, err, moves, endUp)), {})
  {
    if !err && res.value.closedRound.Some? && res.value.closedTurn.None? {
      WriteRoundCloseFollows(w, w.s.SceneNow(), res.value.closedRound.value, w.s.RoundNow(), endUp);
      FollowsOn(x, Pending(w, res.value.closedRound), RoundsOf(OpenedOrEnded(w, res, err, moves, endUp)), {});
    } else if !err && res.value.closedRound.None? {
      AnnounceFollows(x, w, res, moves);
    }
  }

  lemma OpenNextFollows(w: World, c: Command, orphans: set<Id>)
    requires c.OpenNext? && RoundInv(RoundsOf(w), orphans)
    ensures Follows(RoundsOf(w), RoundsOf(DoOpenNext(w, c)), {})
  {
    var (s, res, err) := OpenNextOutcome(w.s, c.pick, c.hits, c.canClose, c.at);
    var w1 := NoteClosed(w.(s := s), ClosedTurn(w.s));
    OpenNextMemoryFollows(w, c);
    AfterCloseFollows(RoundsOf(w), w1, res, c.escapes, c.turnUp, c.endUp);
    TailFollows(RoundsOf(w), AfterClose(w1, res, c.escapes, c.turnUp, c.endUp), res, err, c.moves, c.endUp);
  }

  lemma PullFollows(w: World, c: Command)
    requires c.Pull?
    ensures Follows(RoundsOf(w), RoundsOf(DoPull(w, c)), {})
  {
    var (s, res, err) := PullOutcome(w.s, c.blocked, c.found, c.hits);
    var w1 := if c.blocked then w.(s := s) else NoteClosed(w.(s := s), ClosedTurn(w.s));
    assert RoundsOf(w1) == RoundsOf(w).(nextId := s.nextId);
    AfterCloseFollows(RoundsOf(w), w1, res, c.escapes, c.turnUp, false);
    TailFollows(RoundsOf(w), AfterClose(w1, res, c.escapes, c.turnUp, false), res, err, c.moves, false);
  }

  lemma CloseTurnFollows(w: World, c: Command)
    requires c.CloseTurn?
    ensures Follows(RoundsOf(w), RoundsOf(DoCloseTurn(w, c)), {})
  {
    var (s, res, err) := CloseOutcome(w.s, c.confirm, c.awaiting, c.hits);
    if !err && !res.value.refused && res.value.closedTurn.Some? {
      var t := res.value.closedTurn;
      var w1 := NoteClosed(w.(s := s), t);
      assert RoundsOf(w1) == RoundsOf(w);
      TouchFollows(w1, t, c.escapes, None);
      PersistClosedTurnFollows(Touch(w1, t, c.escapes), t.value, None, res.value.damaged, c.turnUp, false);
      FollowsOn(RoundsOf(w), RoundsOf(Touch(w1, t, c.escapes)), RoundsOf(DoCloseTurn(w, c)), {});
    }
  }

  /** The one command that forgets a round: the scene's row is closed through CloseSceneAndRound,
      which only updates rows, while the round is not a row yet. */
  predicate Forgets(w: World, c: Command) {
    c.ChangeScene? && !w.s.HasOpenTurn() && w.s.scenePersisted && c.closeUp && !w.s.roundPersisted
  }

  /** The command's memory: the scene and round left, and what of them was closed or kept. */
  function SceneLeft(w: World, c: Command): World
    requires c.ChangeScene?
  {
    var end := RoundEnd(SceneSnap(w.s.scene, Some(c.at)), RoundSnap(w.s.round, w.s.mode, Some(c.at)));
    var w1 := w.(s := SceneChanged(w.s));
    if !w.s.scenePersisted || !c.closeUp then w1.(ends := MarkEnd(w1.ends, end))
    else w1.(disk := ClosePair(w1.disk, w.s.scene, w.s.round, c.at))
  }

  lemma SceneLeftFollows(w: World, c: Command, orphans: set<Id>)
    requires c.ChangeScene? && RoundInv(RoundsOf(w), orphans)
    ensures Follows(RoundsOf(w), RoundsOf(SceneLeft(w, c)),
      if w.s.scenePersisted && c.closeUp && !w.s.roundPersisted then {w.s.round} else {})
  {
    if !w.s.scenePersisted || !c.closeUp {
      HandoverFollows(RoundsOf(w), RoundsOf(SceneLeft(w, c)),
                      RoundEnd(SceneSnap(w.s.scene, Some(c.at)), RoundSnap(w.s.round, w.s.mode, Some(c.at))));
    }
  }

  /** The rounds a write of the new pair can make known are the waiting ends and the new round. */
  lemma BirthKnown(w: World, up: bool)
    ensures Known(RoundsOf(EnsureRows(w, w.s.SceneNow(), w.s.RoundNow(), up))) == Known(RoundsOf(w))
  {
    var w' := EnsureRows(w, w.s.SceneNow(), w.s.RoundNow(), up);
    if EnsureOk(w, up) {
      CloseFollows(RoundsOf(w), w.disk, w.ends, w.s.SceneNow(), w.s.RoundNow(), RoundsOf(w'));
      WithoutAll(w.ends, EndIds(w.ends));
    }
  }

  lemma ForgottenRound(w: World, c: Command, orphans: set<Id>)
    requires RoundInv(RoundsOf(w), orphans) && Forgets(w, c)
    ensures w.s.round !in Known(RoundsOf(DoChangeScene(w, c)))
  {
    BirthKnown(SceneLeft(w, c), c.birthUp);
    assert w.s.round !in Known(RoundsOf(SceneLeft(w, c)));
  }

  lemma ChangeSceneFollows(w: World, c: Command, orphans: set<Id>)
    requires c.ChangeScene? && RoundInv(RoundsOf(w), orphans)
    ensures Follows(RoundsOf(w), RoundsOf(DoChangeScene(w, c)), if Forgets(w, c) then {w.s.round} else {})
  {
    if !w.s.HasOpenTurn() {
      var w2 := SceneLeft(w, c);
      SceneLeftFollows(w, c, orphans);
      EnsureRowsFollows(w2, w2.s.SceneNow(), w2.s.RoundNow(), c.birthUp);
      FollowsOn(RoundsOf(w), RoundsOf(w2), RoundsOf(DoChangeScene(w, c)), if Forgets(w, c) then {w.s.round} else {});
    }
  }

  lemma {:induction false} HoldAllFollows(w: World, t: Id, acts: seq<Cancelling>)
    ensures Follows(RoundsOf(w), RoundsOf(HoldAll(w, t, acts)), {})
  {
    HoldAllRounds(w, t, acts);
  }

  lemma {:induction false} WriteAllFollows(w: World, sc: SceneSnap, rd: RoundSnap, persisted: bool,
      acts: seq<Cancelling>)
    ensures Follows(RoundsOf(w), RoundsOf(WriteAllCancelled(w, sc, rd, persisted, acts)), {})
  {
    if acts != [] {
      WriteAllFollows(w, sc, rd, persisted, acts[..|acts| - 1]);
      EnsureRowsFollows(WriteAllCancelled(w, sc, rd, persisted, acts[..|acts| - 1]), sc, rd, acts[|acts| - 1].ensureUp);
    }
  }

  lemma EnsureActiveFollows(w: World, up: bool)
    ensures Follows(RoundsOf(w), RoundsOf(EnsureActive(w, up)), {})
  {
    if !w.s.roundPersisted { EnsureRowsFollows(w, w.s.SceneNow(), w.s.RoundNow(), up); }
  }

  lemma ReadyFollows(x: Rounds, w: World, up: bool, w': World)
    requires Follows(x, RoundsOf(w), {}) && w' == EnsureActive(w, up)
    ensures Follows(x, RoundsOf(w'), {})
  {
    EnsureActiveFollows(w, up);
    FollowsOn(x, RoundsOf(w), RoundsOf(w'), {});
  }

  lemma RecordReadyFollows(w: World, ensureUp: bool)
    ensures Follows(RoundsOf(w), RoundsOf(RecordReady(w, ensureUp)), {})
  {
    var w1 := w.(s := w.s.(nextId := w.s.nextId + 1));
    assert RoundsOf(w1) == RoundsOf(w).(nextId := w1.s.nextId);
    ReadyFollows(RoundsOf(w), w1, ensureUp, RecordReady(w, ensureUp));
  }

  lemma RecordMasterFollows(w: World, ensureUp: bool, insertUp: bool)
    ensures Follows(RoundsOf(w), RoundsOf(RecordMaster(w, ensureUp, insertUp)), {})
  {
    RecordReadyFollows(w, ensureUp);
    RecordMasterWrites(w, ensureUp, insertUp);
  }

  lemma MasterActionFollows(w: World, c: Command)
    requires c.MasterAction?
    ensures Follows(RoundsOf(w), RoundsOf(DoMasterAction(w, c)), {})
  {
    var w1 := PersistBoardOutsideTurn(Touch(w, OpenTurn(w.s), c.touches), c.boardUp);
    assert RoundsOf(w1) == RoundsOf(w).(nextId := w1.s.nextId);
    RecordMasterFollows(w1, c.ensureUp, c.insertUp);
    FollowsOn(RoundsOf(w), RoundsOf(w1), RoundsOf(DoMasterAction(w, c)), {});
  }

  lemma ChangeModeFollows(w: World, c: Command)
    requires c.ChangeMode?
    ensures Follows(RoundsOf(w), RoundsOf(DoChangeMode(w, c)), {})
  {
    var w1 := w.(s := w.s.(mode := c.mode));
    assert RoundsOf(w1) == RoundsOf(w);
    EnsureRowsFollows(w1, w1.s.SceneNow(), w1.s.RoundNow(), c.ensureUp);
  }

  lemma RestartFollows(w: World, c: Command)
    requires c.Restart?
    ensures Follows(RoundsOf(w), RoundsOf(DoRestart(w, c)), Lost(w, c))
  {
  }

  /** What a restart can lose: the rounds that were only in memory. */
  function Lost(w: World, c: Command): set<Id> {
    if Forgets(w, c) then {w.s.round}
    else if c.Restart? then Known(RoundsOf(w)) - w.disk.rounds.Keys
    else {}
  }

  lemma StepFollows(w: World, c: Command, orphans: set<Id>)
    requires RoundInv(RoundsOf(w), orphans)
    ensures Follows(RoundsOf(w), RoundsOf(Step(w, c)), Lost(w, c))
  {
    match c {
      case OpenNext(_, _, _, _, _, _, _, _) => OpenNextFollows(w, c, orphans);
      case Pull(_, _, _, _, _, _) => PullFollows(w, c);
      case CloseTurn(_, _, _, _, _) => CloseTurnFollows(w, c);
      case ChangeScene(_, _, _) => ChangeSceneFollows(w, c, orphans);
      case ChangeMode(_, _, _) =>
        ChangeModeFollows(w, c);
      case MasterAction(_, _, _, _) =>
        MasterActionFollows(w, c);
      case CancelActions(acts) =>
        if w.s.HasOpenTurn() { HoldAllFollows(w, w.s.current.value, acts); }
        else { WriteAllFollows(w, w.s.SceneNow(), w.s.RoundNow(), w.s.roundPersisted, acts); }
      case EditSheet(_, _) =>
      case Restart(_) =>
        RestartFollows(w, c);
    }
  }

  /** Within one room's life a round the room knew of is never lost, except exactly when the scene
      changes over a round that is not a row in a scene that is. */
  lemma RoundIsForgottenIff(w: World, c: Command, orphans: set<Id>)
    requires RoundInv(RoundsOf(w), orphans) && !c.Restart?
    ensures Known(RoundsOf(w)) <= Known(RoundsOf(Step(w, c))) <==> !Forgets(w, c)
    ensures FinishesStay(RoundsOf(w), RoundsOf(Step(w, c)))
  {
    StepFollows(w, c, orphans);
    if Forgets(w, c) { ForgottenRound(w, c, orphans); }
  }
}
