/** Which command leaves an open round in a finished scene, where a later restart cannot find it.
    Granularity: commands. */
module Stranding {
  import opened Prelude
  import opened Store
  import opened Session
  import opened RoomSpec
  import opened RoundInvariant
  import opened RoundRuns
  import opened LiveView

  /** No end waits after the step, or the step wrote no scene and no round. */
  predicate PairsSettled(w: World, w': World) {
    w'.ends == [] || (w'.disk.scenes == w.disk.scenes && w'.disk.rounds == w.disk.rounds)
  }

  lemma EnsureRowsSettles(w: World, sc: SceneSnap, rd: RoundSnap, up: bool)
    ensures PairsSettled(w, EnsureRows(w, sc, rd, up))
    ensures w.ends == [] || EnsureOk(w, up) ==> EnsureRows(w, sc, rd, up).ends == []
  {
    WithoutAll(w.ends, EndIds(w.ends));
  }

  lemma WriteRoundCloseSettles(w: World, sc: SceneSnap, closed: RoundSnap, next: RoundSnap, up: bool)
    ensures PairsSettled(w, WriteRoundClose(w, sc, closed, next, up))
  {
    EndsGrow(w.ends, RoundEnd(sc, closed));
    WithoutAll(w.ends, EndIds(w.ends + [RoundEnd(sc, closed)]));
  }

  lemma PersistSettles(
    w: World, t: Id, closedIn: Option<RoundSnap>, damaged: seq<Id>, turnUp: bool, salvageUp: bool)
    ensures PairsSettled(w, PersistClosedTurn(w, t, closedIn, damaged, turnUp, salvageUp))
  {
    var data := CloseData(w, t, closedIn, damaged);
    WithoutAll(w.ends, EndIds(w.ends));
    if !(turnUp && TurnAcceptable(w.disk, data)) && data.next.Some? {
      var lost := w.(pending := w.pending - {t}, unwritten := SheetsToWrite(w, damaged),
                     log := w.log.(attempts := w.log.attempts + [data]));
      WriteRoundCloseSettles(lost, data.scene, data.round, data.next.value, salvageUp);
    }
  }

  lemma ExecutedSettles(
    w: World, w1: World, res: Option<NextResult>, err: bool, escapes: bool, moves: bool, turnUp: bool, endUp: bool)
    requires w1.disk == w.disk && w1.ends == w.ends && (!err ==> res.Some?)
    ensures PairsSettled(w, OpenedOrEnded(AfterClose(w1, res, escapes, turnUp, endUp), res, err, moves, endUp))
  {
    if res.Some? && res.value.closedTurn.Some? {
      var t := res.value.closedTurn;
      PersistSettles(Touch(w1, t, escapes), t.value, res.value.closedRound, res.value.damaged, turnUp, endUp);
    } else if !err && res.value.closedRound.Some? {
      WriteRoundCloseSettles(w1, w1.s.SceneNow(), res.value.closedRound.value, w1.s.RoundNow(), endUp);
    }
  }

  lemma VerbSettles(w: World, c: Command)
    requires IsVerb(c)
    ensures PairsSettled(w, Step(w, c))
  {
    if c.OpenNext? {
      var (s, res, err) := OpenNextOutcome(w.s, c.pick, c.hits, c.canClose, c.at);
      ExecutedSettles(w, NoteClosed(w.(s := s), ClosedTurn(w.s)), res, err, c.escapes, c.moves, c.turnUp, c.endUp);
    } else if c.Pull? {
      var (s, res, err) := PullOutcome(w.s, c.blocked, c.found, c.hits);
      var w1 := if c.blocked then w.(s := s) else NoteClosed(w.(s := s), ClosedTurn(w.s));
      ExecutedSettles(w, w1, res, err, c.escapes, c.moves, c.turnUp, false);
    } else {
      var (s, res, err) := CloseOutcome(w.s, c.confirm, c.awaiting, c.hits);
      if !err && !res.value.refused && res.value.closedTurn.Some? {
        var t := res.value.closedTurn;
        PersistSettles(Touch(NoteClosed(w.(s := s), t), t, c.escapes), t.value, None, res.value.damaged, c.turnUp,
          false);
      }
    }
  }

  lemma {:induction false} CancelSettles(w: World, sc: SceneSnap, rd: RoundSnap, persisted: bool, acts: seq<Cancelling>)
    ensures PairsSettled(w, WriteAllCancelled(w, sc, rd, persisted, acts))
  {
    if acts != [] {
      var mid := WriteAllCancelled(w, sc, rd, persisted, acts[..|acts| - 1]);
      CancelSettles(w, sc, rd, persisted, acts[..|acts| - 1]);
      EnsureRowsSettles(mid, sc, rd, acts[|acts| - 1].ensureUp);
    }
  }

  lemma MasterSettles(w: World, c: Command)
    requires c.MasterAction?
    ensures PairsSettled(w, DoMasterAction(w, c))
  {
    var w1 := PersistBoardOutsideTurn(Touch(w, OpenTurn(w.s), c.touches), c.boardUp);
    var w2 := w1.(s := w1.s.(nextId := w1.s.nextId + 1));
    EnsureRowsSettles(w2, w2.s.SceneNow(), w2.s.RoundNow(), c.ensureUp);
    RecordMasterWrites(w1, c.ensureUp, c.insertUp);
    assert RoundsOf(RecordMaster(w1, c.ensureUp, c.insertUp)).ends == DoMasterAction(w, c).ends;
  }

  lemma ModeSettles(w: World, c: Command)
    requires c.ChangeMode?
    ensures PairsSettled(w, DoChangeMode(w, c))
  {
    var w1 := w.(s := w.s.(mode := c.mode));
    EnsureRowsSettles(w1, w1.s.SceneNow(), w1.s.RoundNow(), c.ensureUp);
  }

  lemma RestartSettles(w: World, c: Command)
    requires c.Restart?
    ensures DoRestart(w, c).ends == []
  {
    var born := w.(s := Rehydrated(w.disk, w.s.nextId), ends := [], unwritten := {}, pending := map[],
                   board := if w.disk.board.Some? then w.disk.board.value else []);
    EnsureRowsSettles(born, born.s.SceneNow(), born.s.RoundNow(), c.birthUp);
  }

  /** Every command but a scene change whose own close got through. */
  lemma StepSettles(w: World, c: Command)
    requires !(c.ChangeScene? && !w.s.HasOpenTurn() && w.s.scenePersisted && c.closeUp && !c.birthUp)
    requires c.ChangeScene? ==> ValidEnds(w.ends)
    ensures PairsSettled(w, Step(w, c))
  {
    match c {
      case OpenNext(_, _, _, _, _, _, _, _) => VerbSettles(w, c);
      case Pull(_, _, _, _, _, _) => VerbSettles(w, c);
      case CloseTurn(_, _, _, _, _) => VerbSettles(w, c);
      case ChangeScene(_, _, _) => ChangeSceneSettles(w, c);
      case ChangeMode(_, _, _) => ModeSettles(w, c);
      case MasterAction(_, _, _, _) => MasterSettles(w, c);
      case CancelActions(acts) =>
        if w.s.HasOpenTurn() { HoldAllRounds(w, w.s.current.value, acts); }
        else { CancelSettles(w, w.s.SceneNow(), w.s.RoundNow(), w.s.roundPersisted, acts); }
      case EditSheet(_, _) =>
      case Restart(_) => RestartSettles(w, c);
    }
  }

  lemma ChangeSceneSettles(w: World, c: Command)
    requires c.ChangeScene? && ValidEnds(w.ends)
    requires !(!w.s.HasOpenTurn() && w.s.scenePersisted && c.closeUp && !c.birthUp)
    ensures PairsSettled(w, DoChangeScene(w, c))
  {
    if !w.s.HasOpenTurn() {
      var end := RoundEnd(SceneSnap(w.s.scene, Some(c.at)), RoundSnap(w.s.round, w.s.mode, Some(c.at)));
      var w1 := w.(s := SceneChanged(w.s));
      var w2 :=
        if !w.s.scenePersisted || !c.closeUp then w1.(ends := MarkEnd(w1.ends, end))
        else w1.(disk := ClosePair(w1.disk, w.s.scene, w.s.round, c.at));
      EnsureRowsSettles(w2, w2.s.SceneNow(), w2.s.RoundNow(), c.birthUp);
    }
  }

  /** With no end waiting, an open round of a finished scene is one an earlier room had left there. */
  lemma SettledShapeStrandsNothing(x: Rounds, y: Rounds, d: Disk, d': Disk, orphans: set<Id>, left: set<Id>)
    requires RoundInv(x, orphans) && RoundInv(y, left) && left <= orphans + Stranded(d) && y.ends == []
    requires d.scenes == x.scenes && d.rounds == x.rows && d'.scenes == y.scenes && d'.rounds == y.rows
    ensures Stranded(d') <= Stranded(d)
  {
    NoEnds(y);
    forall r | r in Stranded(d') ensures r in Stranded(d) {
      assert y.Open(r);
      if r in orphans { assert x.Open(r); }
    }
  }

  lemma SettledStrandsNothing(w: World, c: Command, orphans: set<Id>)
    requires RoundInv(RoundsOf(w), orphans) && PairsSettled(w, Step(w, c))
    ensures Stranded(Step(w, c).disk) <= Stranded(w.disk)
  {
    var w' := Step(w, c);
    StepRounds(w, c, orphans);
    if w'.ends == [] {
      SettledShapeStrandsNothing(RoundsOf(w), RoundsOf(w'), w.disk, w'.disk, orphans, OrphansAfter(w, c, orphans));
    }
  }

  /** A scene change that closed its scene while the next pair's birth failed, over a waiting end of that
      scene whose round is an open row. */
  ghost predicate Strands(w: World, c: Command) {
    && c.ChangeScene? && !w.s.HasOpenTurn() && w.s.scenePersisted && c.closeUp && !c.birthUp
    && exists i :: 0 <= i < |w.ends| && w.ends[i].scene.id == w.s.scene && OpenRound(w.disk, w.ends[i].round.id)
  }

  lemma ClosedSceneStrands(w: World, c: Command, orphans: set<Id>, r: Id)
    requires RoundInv(RoundsOf(w), orphans)
    requires c.ChangeScene? && !w.s.HasOpenTurn() && w.s.scenePersisted && c.closeUp && !c.birthUp
    ensures r in Stranded(Step(w, c).disk) && r !in Stranded(w.disk) <==>
      (r != w.s.round && OpenRound(w.disk, r) && w.disk.rounds[r].scene == w.s.scene)
  {
    var d := ClosePair(w.disk, w.s.scene, w.s.round, c.at);
    assert Step(w, c).disk == d;
    assert RoundsOf(w).OpenScene(w.s.scene);
  }

  ghost predicate WaitsInItsScene(x: Rounds, r: Id) {
    x.Open(r) && exists i :: 0 <= i < |x.ends| && x.ends[i].scene.id == x.scene && x.ends[i].round.id == r
  }

  /** The open rows of the active scene, but the active round, are the waiting ends of that scene. */
  lemma OpenRowsOfTheScene(x: Rounds, orphans: set<Id>, r: Id)
    requires RoundInv(x, orphans) && r != x.round
    ensures x.Open(r) && x.rows[r].scene == x.scene <==> WaitsInItsScene(x, r)
  {
    if x.Open(r) && x.rows[r].scene == x.scene {
      assert r !in orphans;
      var i :| 0 <= i < |x.ends| && x.ends[i].round.id == r;
      assert x.ends[i].scene.id == x.scene;
    }
  }

  /** A command leaves a new open round in a finished scene iff it is such a scene change. */
  lemma NewlyStrandedIff(w: World, c: Command, orphans: set<Id>)
    requires RoundInv(RoundsOf(w), orphans)
    ensures (exists r :: r in Stranded(Step(w, c).disk) && r !in Stranded(w.disk)) <==> Strands(w, c)
  {
    if c.ChangeScene? && !w.s.HasOpenTurn() && w.s.scenePersisted && c.closeUp && !c.birthUp {
      var x := RoundsOf(w);
      forall r ensures r in Stranded(Step(w, c).disk) && r !in Stranded(w.disk) <==>
        (r != x.round && WaitsInItsScene(x, r))
      {
        ClosedSceneStrands(w, c, orphans, r);
        if r != x.round { OpenRowsOfTheScene(x, orphans, r); }
      }
      if Strands(w, c) {
        var i :| 0 <= i < |w.ends| && w.ends[i].scene.id == w.s.scene && OpenRound(w.disk, w.ends[i].round.id);
        assert w.ends[i].round.id in EndIds(w.ends);
        assert WaitsInItsScene(x, w.ends[i].round.id);
      }
      if r :| r in Stranded(Step(w, c).disk) && r !in Stranded(w.disk) {
        assert WaitsInItsScene(x, r) && x.Open(r);
      }
    } else {
      StepSettles(w, c);
      SettledStrandsNothing(w, c, orphans);
    }
  }

  // ---------------------------------------------------------------- runs

  /** No command of the run is one that strands. */
  ghost predicate NoneStrands(w: World, commands: seq<Command>) {
    forall k :: 0 <= k < |commands| ==> !Strands(Run(w, commands[..k]), commands[k])
  }

  lemma {:induction false} NeverStranded(w: World, commands: seq<Command>)
    requires RoundInv(RoundsOf(w), {}) && Stranded(w.disk) == {} && NoneStrands(w, commands)
    ensures Stranded(Run(w, commands).disk) == {}
  {
    if commands != [] {
      var n := |commands| - 1;
      FirstNoneStrands(w, commands);
      NeverStranded(w, commands[..n]);
      RunRounds(w, commands[..n]);
      StepStrandsNothing(Run(w, commands[..n]), commands[n], RunOrphans(w, commands[..n]));
    }
  }

  lemma FirstNoneStrands(w: World, commands: seq<Command>)
    requires NoneStrands(w, commands) && commands != []
    ensures NoneStrands(w, commands[..|commands| - 1])
    ensures !Strands(Run(w, commands[..|commands| - 1]), commands[|commands| - 1])
  {
    var n := |commands| - 1;
    forall k | 0 <= k < n ensures !Strands(Run(w, commands[..n][..k]), commands[..n][k]) {
      assert commands[..n][..k] == commands[..k];
    }
  }

  lemma StepStrandsNothing(w: World, c: Command, orphans: set<Id>)
    requires RoundInv(RoundsOf(w), orphans) && Stranded(w.disk) == {} && !Strands(w, c)
    ensures Stranded(Step(w, c).disk) == {}
  {
    NewlyStrandedIff(w, c, orphans);
  }

  /** So over any run, with any number of restarts and any write failing, the disk never holds two open
      rounds unless one of its commands was such a scene change. */
  lemma OneOpenAcrossRestarts(sheets: map<Id, Bars>, mapped: bool, birthUp: bool, commands: seq<Command>)
    requires NoneStrands(Genesis(sheets, mapped, birthUp), commands)
    ensures var d := Run(Genesis(sheets, mapped, birthUp), commands).disk;
      forall r, q :: OpenRound(d, r) && OpenRound(d, q) ==> r == q
  {
    var g := Genesis(sheets, mapped, birthUp);
    var w := Run(g, commands);
    GenesisRounds(sheets, mapped, birthUp);
    GenesisStrandsNothing(sheets, mapped, birthUp);
    NeverStranded(g, commands);
    RunRounds(g, commands);
    UniqueOutsideStranded(RoundsOf(w), w.disk, RunOrphans(g, commands));
  }

  lemma GenesisStrandsNothing(sheets: map<Id, Bars>, mapped: bool, birthUp: bool)
    ensures Stranded(Genesis(sheets, mapped, birthUp).disk) == {}
  {
    GenesisRounds(sheets, mapped, birthUp);
    var w := Genesis(sheets, mapped, birthUp);
    var x := RoundsOf(w);
    assert EndIds(w.ends) == {};
    assert forall r :: x.Open(r) ==> r == x.round;
  }

  lemma UniqueOutsideStranded(x: Rounds, d: Disk, orphans: set<Id>)
    requires RoundInv(x, orphans) && d.scenes == x.scenes && d.rounds == x.rows && Stranded(d) == {}
    ensures forall r, q :: OpenRound(d, r) && OpenRound(d, q) ==> r == q
  {
    StrandedShape(x, d, orphans);
    forall r, q | OpenRound(d, r) && OpenRound(d, q) ensures r == q {
      assert x.Open(r) && x.Open(q);
      OneOpenScene(x, x.rows[r].scene, x.rows[q].scene, orphans);
    }
  }
}
