/** What each command leaves on disk, exactly, in any world a run can reach. Granularity: commands. */
module Commands {
  import opened Prelude
  import opened Store
  import opened Session
  import opened RoomSpec
  import opened RoundInvariant
  import opened RoundRuns
  import opened LiveView

  // ---------------------------------------------------------------- the active pair as rows

  predicate PairIsRows(d: Disk, s: SessionState) { s.scene in d.scenes && s.round in d.rounds }

  /** Once the pair is known to be rows, or has just been made rows, a record of it is acceptable. */
  lemma EnsuredPair(w: World, up: bool, orphans: set<Id>)
    requires RoundInv(RoundsOf(w), orphans) && (w.s.roundPersisted || up)
    ensures PairIsRows((if w.s.roundPersisted then w else EnsureRows(w, w.s.SceneNow(), w.s.RoundNow(), up)).disk, w.s)
    ensures up ==> PairIsRows(EnsureRows(w, w.s.SceneNow(), w.s.RoundNow(), up).disk, w.s)
  {
    EnsureRowsRounds(w, up, orphans);
  }

  // ---------------------------------------------------------------- master actions

  /** The id the action's record gets: the board's change, if any, takes one first. */
  function ActionId(w: World, c: Command): Id
    requires c.MasterAction?
  {
    if c.touches then w.s.nextId + 1 else w.s.nextId
  }

  lemma RecordMasterRow(w: World, ensureUp: bool, insertUp: bool, orphans: set<Id>)
    requires RoundInv(RoundsOf(w), orphans) && OpenTurn(w.s).None?
    ensures var w' := RecordMaster(w, ensureUp, insertUp);
      var rec := Record(w.s.nextId, w.s.scene, w.s.round, None);
      var inserted := (w.s.roundPersisted || ensureUp) && insertUp;
      LiveOf(w') == MasterRecorded(LiveOf(w).(nextId := w.s.nextId + 1), rec, inserted)
  {
    var w1 := w.(s := w.s.(nextId := w.s.nextId + 1));
    LaterRounds(w, w1, orphans);
    RecordMasterLive(w, ensureUp, insertUp);
    assert EnsureOk(w, ensureUp) == ensureUp;
    if w.s.roundPersisted || ensureUp { EnsuredPair(w1, ensureUp, orphans); }
    assert RowTaken(w, ensureUp, insertUp) == ((w.s.roundPersisted || ensureUp) && insertUp);
  }

  lemma BoardSaved(w: World, c: Command)
    requires c.MasterAction? && OpenTurn(w.s).None?
    ensures var w1 := PersistBoardOutsideTurn(Touch(w, None, c.touches), c.boardUp);
      var v := Touched(LiveOf(w), None, c.touches);
      && LiveOf(w1) == (if w.mapped && c.boardUp then v.(boardRow := Some(v.board)) else v)
      && w1.s == w.s.(nextId := ActionId(w, c))
      && DoMasterAction(w, c) == RecordMaster(w1, c.ensureUp, c.insertUp)
      && RoundsOf(w1) == RoundsOf(w).(nextId := w1.s.nextId)
  {
  }

  /** A master action between turns: its record and the board are each written iff the database answers,
      whatever happened before. */
  lemma MasterActionBetweenTurns(w: World, c: Command, orphans: set<Id>)
    requires c.MasterAction? && RoundInv(RoundsOf(w), orphans) && OpenTurn(w.s).None?
    ensures var v, v' := LiveOf(w), LiveOf(DoMasterAction(w, c));
      && v'.board == v.board + (if c.touches then [Change(w.s.nextId, None)] else [])
      && v'.masterActions == v.masterActions +
         (if (w.s.roundPersisted || c.ensureUp) && c.insertUp then [Record(ActionId(w, c), w.s.scene, w.s.round, None)]
           else [])
      && v'.boardRow == (if w.mapped && c.boardUp then Some(v'.board) else v.boardRow)
      && v'.pending == v.pending
  {
    var w1 := PersistBoardOutsideTurn(Touch(w, None, c.touches), c.boardUp);
    BoardSaved(w, c);
    LaterRounds(w, w1, orphans);
    RecordMasterRow(w1, c.ensureUp, c.insertUp, orphans);
  }

  /** Inside a turn neither is: the record waits with the turn's others, the board with its close. */
  lemma MasterActionInsideTurn(w: World, c: Command)
    requires c.MasterAction? && w.s.HasOpenTurn()
    ensures var w' := DoMasterAction(w, c);
      && w'.disk == w.disk
      && w'.board == w.board + (if c.touches then [Change(w.s.nextId, w.s.current)] else [])
      && Held(w'.pending, w.s.current.value).masterActions ==
         Held(w.pending, w.s.current.value).masterActions + [Record(ActionId(w, c), w.s.scene, w.s.round, w.s.current)]
  {
  }

  // ---------------------------------------------------------------- cancellations

  /** The rows a cascade adds: each action on its own answers, with the flag as it stood at the first. */
  function CancelledRows(s: SessionState, persisted: bool, acts: seq<Cancelling>): seq<Record> {
    if acts == [] then []
    else
      var last := acts[|acts| - 1];
      CancelledRows(s, persisted, acts[..|acts| - 1]) +
      if (persisted || last.ensureUp) && last.insertUp then [Record(last.action, s.scene, s.round, None)] else []
  }

  lemma {:induction false} WriteAllAdds(w: World, acts: seq<Cancelling>, orphans: set<Id>)
    requires RoundInv(RoundsOf(w), orphans) && !w.s.HasOpenTurn()
    ensures WriteAllCancelled(w, w.s.SceneNow(), w.s.RoundNow(), w.s.roundPersisted, acts).disk.cancelledActions ==
      w.disk.cancelledActions + CancelledRows(w.s, w.s.roundPersisted, acts)
  {
    if acts != [] {
      var last := acts[|acts| - 1];
      var mid := WriteAllCancelled(w, w.s.SceneNow(), w.s.RoundNow(), w.s.roundPersisted, acts[..|acts| - 1]);
      WriteAllAdds(w, acts[..|acts| - 1], orphans);
      WriteAllCancelledRounds(w, acts[..|acts| - 1], orphans);
      EnsureRowsLive(mid, w.s.SceneNow(), w.s.RoundNow(), last.ensureUp);
      if w.s.roundPersisted || last.ensureUp { EnsuredPair(mid, last.ensureUp, orphans); }
    }
  }

  /** A cascade cancelled between turns becomes rows in order, each iff the database answers for it. */
  lemma CancelWrites(w: World, acts: seq<Cancelling>, orphans: set<Id>)
    requires RoundInv(RoundsOf(w), orphans) && !w.s.HasOpenTurn()
    ensures Step(w, CancelActions(acts)).disk.cancelledActions ==
      w.disk.cancelledActions + CancelledRows(w.s, w.s.roundPersisted, acts)
  {
    WriteAllAdds(w, acts, orphans);
  }

  // ---------------------------------------------------------------- the regime

  lemma EnsureRefreshesMode(w: World, orphans: set<Id>)
    requires RoundInv(RoundsOf(w), orphans)
    ensures var d := EnsureRows(w, w.s.SceneNow(), w.s.RoundNow(), true).disk;
      w.s.round in d.rounds && d.rounds[w.s.round].mode == w.s.mode && d.events == w.disk.events
  {
    WriteEndsOnlyPairs(w.disk, w.ends);
  }

  /** A regime change: the round's row carries the new regime iff the write went through, and history
      gets one event for it iff that went through too and the regime really changed. */
  lemma ChangeModeWrites(w: World, c: Command, orphans: set<Id>)
    requires c.ChangeMode? && RoundInv(RoundsOf(w), orphans)
    ensures var w' := Step(w, c);
      && w'.s.mode == c.mode
      && (c.ensureUp ==> w.s.round in w'.disk.rounds && w'.disk.rounds[w.s.round].mode == c.mode)
      && (!c.ensureUp ==> w'.disk == w.disk)
      && w'.disk.events == w.disk.events +
         if c.ensureUp && c.eventUp && w.s.mode != c.mode then [ModeEvent(w.s.round, w.s.mode, c.mode)] else []
  {
    var w1 := w.(s := w.s.(mode := c.mode));
    assert RoundsOf(w1) == RoundsOf(w);
    if c.ensureUp { EnsureRefreshesMode(w1, orphans); }
  }

  // ---------------------------------------------------------------- a turn's row

  /** A turn is written under the round it closed in, not under the successor the same command made active. */
  lemma TurnRowUnderItsRound(w: World, c: Command)
    requires IsVerb(c) && Closes(w, c) && w.s.current.value !in w.disk.turns
    ensures var d := Step(w, c).disk;
      w.s.current.value in d.turns ==> d.turns == w.disk.turns[w.s.current.value := w.s.round]
  {
    var t := w.s.current.value;
    if c.OpenNext? {
      OpenNextTurnRow(w, c);
    } else if c.Pull? {
      PullTurnRow(w, c);
    } else {
      PersistTurnRow(Touch(NoteClosed(w.(s := Closed(w.s, c.hits)), Some(t)), Some(t), c.escapes), t, None,
                     Damaged(w.s.sheets, c.hits), c.turnUp, false);
    }
  }

  lemma PersistTurnRow(w: World, t: Id, closedIn: Option<RoundSnap>, damaged: seq<Id>, turnUp: bool, salvageUp: bool)
    ensures var d := PersistClosedTurn(w, t, closedIn, damaged, turnUp, salvageUp).disk;
      d.turns == w.disk.turns || d.turns == w.disk.turns[t := if closedIn.Some? then closedIn.value.id else w.s.round]
  {
    var data := CloseData(w, t, closedIn, damaged);
    WriteEndsOnlyPairs(w.disk, w.ends);
    if data.next.Some? { WriteEndsOnlyPairs(w.disk, w.ends + [RoundEnd(data.scene, data.round)]); }
  }

  lemma TailTurnRows(w: World, res: Option<NextResult>, err: bool, moves: bool, endUp: bool)
    requires !err ==> res.Some?
    ensures OpenedOrEnded(w, res, err, moves, endUp).disk.turns == w.disk.turns
  {
    if !err && res.value.closedRound.Some? && res.value.closedTurn.None? {
      WriteEndsOnlyPairs(w.disk, w.ends + [RoundEnd(w.s.SceneNow(), res.value.closedRound.value)]);
    }
  }

  lemma ExecutedTurnRow(w: World, w1: World, hits: seq<Hit>, res: Option<NextResult>, err: bool, escapes: bool,
      moves: bool, turnUp: bool, endUp: bool)
    requires Executed(w, w1, hits, res, err) && UnderItsRound(w, w1, res) && w.s.HasOpenTurn()
    ensures var d := OpenedOrEnded(AfterClose(w1, res, escapes, turnUp, endUp), res, err, moves, endUp).disk;
      d.turns == w.disk.turns || d.turns == w.disk.turns[w.s.current.value := w.s.round]
  {
    var t := res.value.closedTurn;
    PersistTurnRow(Touch(w1, t, escapes), t.value, res.value.closedRound, res.value.damaged, turnUp, endUp);
    TailTurnRows(AfterClose(w1, res, escapes, turnUp, endUp), res, err, moves, endUp);
  }

  lemma OpenNextTurnRow(w: World, c: Command)
    requires c.OpenNext? && w.s.HasOpenTurn()
    ensures var d := DoOpenNext(w, c).disk;
      d.turns == w.disk.turns || d.turns == w.disk.turns[w.s.current.value := w.s.round]
  {
    var (s, res, err) := OpenNextOutcome(w.s, c.pick, c.hits, c.canClose, c.at);
    OpenNextExecuted(w, c);
    OpenNextUnderItsRound(w, c);
    ExecutedTurnRow(w, NoteClosed(w.(s := s), ClosedTurn(w.s)), c.hits, res, err, c.escapes, c.moves, c.turnUp,
      c.endUp);
  }

  lemma PullTurnRow(w: World, c: Command)
    requires c.Pull? && !c.blocked && w.s.HasOpenTurn()
    ensures var d := DoPull(w, c).disk;
      d.turns == w.disk.turns || d.turns == w.disk.turns[w.s.current.value := w.s.round]
  {
    var (s, res, err) := PullOutcome(w.s, c.blocked, c.found, c.hits);
    PullExecuted(w, c);
    ExecutedTurnRow(w, NoteClosed(w.(s := s), ClosedTurn(w.s)), c.hits, res, err, c.escapes, c.moves, c.turnUp, false);
  }

  // ---------------------------------------------------------------- a new room

  /** A new room resumes the round born last of those open in an open scene, in its regime, as the rows have it;
      with none it starts a pair nobody has seen, a row iff the birth gets through. Sheets and board are the
      rows'; nothing an earlier room held or still had to write is there any more. */
  lemma RestartResumes(w: World, c: Command)
    requires c.Restart?
    ensures var w' := Step(w, c);
      && !w'.s.HasOpenTurn() && w'.s.turns == 0 && w'.s.sheets == w.disk.sheets && w'.disk.sheets == w.disk.sheets
      && w'.board == (if w.disk.board.Some? then w.disk.board.value else [])
      && w'.pending == map[] && w'.unwritten == {} && w'.ends == []
      && (forall r :: Resumable(w.disk, r) && (forall q :: Resumable(w.disk, q) ==> q == r || Before(w.disk, q, r)) ==>
            && w'.s.round == r && w'.s.scene == w.disk.rounds[r].scene && w'.s.mode == w.disk.rounds[r].mode
            && w'.s.roundPersisted && w'.s.scenePersisted && w'.disk == w.disk)
      && ((forall r :: !Resumable(w.disk, r)) ==>
            && w'.s.round >= w.s.nextId && w'.s.scene >= w.s.nextId && w'.s.mode == Free
            && (w'.s.roundPersisted <==> c.birthUp)
            && (w.s.nextId !in w.disk.scenes && w.s.nextId + 1 !in w.disk.rounds && c.birthUp ==> NewPairIsRows(w')))
  {
    ResumesTheLast(w.disk);
  }

  // ---------------------------------------------------------------- the scene

  /** The pair as it ended, on disk. */
  predicate PairFinished(d: Disk, s: SessionState, at: Time) {
    && s.scene in d.scenes && d.scenes[s.scene] == Some(at)
    && s.round in d.rounds && d.rounds[s.round].finished == Some(at) && d.rounds[s.round].mode == s.mode
  }

  /** The active pair, open on disk, the round in its scene and in its regime. */
  predicate NewPairIsRows(w: World) {
    && w.s.scene in w.disk.scenes && w.disk.scenes[w.s.scene] == None
    && w.s.round in w.disk.rounds && w.disk.rounds[w.s.round] == RoundRow(w.s.scene, w.s.mode, None)
  }

  lemma BirthMakesRows(w: World, orphans: set<Id>)
    requires RoundInv(RoundsOf(w), orphans)
    ensures NewPairIsRows(EnsureRows(w, w.s.SceneNow(), w.s.RoundNow(), true))
  {
    EnsureRowsRounds(w, true, orphans);
    EnsureRefreshesMode(w, orphans);
  }

  lemma BirthWritesEnd(d: Disk, ends: seq<RoundEnd>, s: SessionState, at: Time, next: SessionState)
    requires ValidEnds(ends) && s.round !in EndIds(ends) && !FinishedBy(ends, s.scene)
    requires s.scene in d.scenes ==> d.scenes[s.scene].None?
    requires s.round in d.rounds ==> d.rounds[s.round].finished.None?
    requires next.round != s.round && next.scene != s.scene
    ensures PairFinished(
      RoundClose(d, ends + [RoundEnd(SceneSnap(s.scene, Some(at)), RoundSnap(s.round, s.mode, Some(at)))],
        next.SceneNow(), next.RoundNow()), s, at)
  {
    var end := RoundEnd(SceneSnap(s.scene, Some(at)), RoundSnap(s.round, s.mode, Some(at)));
    WriteEndsRows(d, ends);
    WriteEndsScenes(d, ends);
    assert (ends + [end])[..|ends|] == ends;
  }

  /** The close was not tried or failed: the old pair's end waits for the birth, which writes both. */
  lemma SceneWaitsWrites(w: World, c: Command, orphans: set<Id>)
    requires c.ChangeScene? && RoundInv(RoundsOf(w), orphans) && !w.s.HasOpenTurn()
    requires !w.s.scenePersisted || !c.closeUp
    requires RoundInv(RoundsOf(w.(s := SceneChanged(w.s), ends := w.ends + [EndNow(w.s, c.at)])), orphans)
    ensures var w' := DoChangeScene(w, c);
      && (w'.s.roundPersisted <==> c.birthUp) && (c.birthUp ==> NewPairIsRows(w') && PairFinished(w'.disk, w.s, c.at))
      && (!c.birthUp ==> w'.ends == w.ends + [EndNow(w.s, c.at)])
  {
    var next := SceneChanged(w.s);
    var w2 := w.(s := next, ends := w.ends + [EndNow(w.s, c.at)]);
    assert MarkEnd(w.ends, EndNow(w.s, c.at)) == w2.ends;
    EnsureRowsRounds(w2, c.birthUp, orphans);
    if c.birthUp {
      BirthMakesRows(w2, orphans);
      BirthWritesEnd(w.disk, w.ends, w.s, c.at, next);
    }
  }

  /** The active pair as it ends at that moment. */
  function EndNow(s: SessionState, at: Time): RoundEnd {
    RoundEnd(SceneSnap(s.scene, Some(at)), RoundSnap(s.round, s.mode, Some(at)))
  }

  lemma SceneChangeInMemory(w: World, c: Command)
    requires c.ChangeScene? && !w.s.HasOpenTurn()
    ensures var w' := DoChangeScene(w, c);
      w'.s == SceneChanged(w.s).(scenePersisted := w'.s.scenePersisted, roundPersisted := w'.s.roundPersisted)
  {
  }

  /** A scene change, with the database answering as c says: the old pair is finished on disk at the moment
      it ended, or that end waits; the new pair is a row iff its birth got through. When the close itself
      got through, a round that was a row is finished with its scene. */
  lemma ChangeSceneWrites(w: World, c: Command, orphans: set<Id>)
    requires c.ChangeScene? && RoundInv(RoundsOf(w), orphans) && !w.s.HasOpenTurn()
    ensures var w' := Step(w, c);
      && w'.s.scene != w.s.scene && w'.s.round != w.s.round
      && w'.s.mode == Free && w'.s.turns == 0 && !w'.s.HasOpenTurn() && w'.s.sheets == w.s.sheets
      && (w'.s.roundPersisted <==> c.birthUp)
      && (c.birthUp ==> NewPairIsRows(w'))
      && if w.s.scenePersisted && c.closeUp then
           && w.s.scene in w'.disk.scenes && w'.disk.scenes[w.s.scene] == Some(c.at)
           && (w.s.roundPersisted ==> w.s.round in w'.disk.rounds && w'.disk.rounds[w.s.round].finished == Some(c.at))
         else if c.birthUp then PairFinished(w'.disk, w.s, c.at)
         else w'.ends == w.ends + [EndNow(w.s, c.at)]
  {
    SceneChangeInMemory(w, c);
    ChangeSceneMemory(w, w.s.scenePersisted && c.closeUp, c.at, orphans);
    if w.s.scenePersisted && c.closeUp {
      SceneClosedWrites(w, c, orphans);
    } else {
      assert MarkEnd(w.ends, EndNow(w.s, c.at)) == w.ends + [EndNow(w.s, c.at)];
      SceneWaitsWrites(w, c, orphans);
    }
  }

  lemma SceneClosedWrites(w: World, c: Command, orphans: set<Id>)
    requires c.ChangeScene? && RoundInv(RoundsOf(w), orphans) && !w.s.HasOpenTurn() && w.s.scenePersisted && c.closeUp
    requires RoundInv(RoundsOf(w.(s := SceneChanged(w.s), disk := ClosePair(w.disk, w.s.scene, w.s.round, c.at))),
      orphans)
    ensures var w' := DoChangeScene(w, c);
      && w.s.scene in w'.disk.scenes && w'.disk.scenes[w.s.scene] == Some(c.at)
      && (w.s.roundPersisted ==> w.s.round in w'.disk.rounds && w'.disk.rounds[w.s.round].finished == Some(c.at))
      && (w'.s.roundPersisted <==> c.birthUp) && (c.birthUp ==> NewPairIsRows(w'))
  {
    var w2 := w.(s := SceneChanged(w.s), disk := ClosePair(w.disk, w.s.scene, w.s.round, c.at));
    EnsureRowsRounds(w2, c.birthUp, orphans);
    if c.birthUp {
      BirthMakesRows(w2, orphans);
      WriteEndsRows(w2.disk, w2.ends);
      WriteEndsScenes(w2.disk, w2.ends);
    }
  }
}
