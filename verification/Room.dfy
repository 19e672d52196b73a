/** The room itself: the object whose routines carry out the protocol, each proved to do to its world
    what RoomSpec says. */
module Room {
  import opened Prelude
  import opened Store
  import opened Session
  import opened RoomSpec
  import opened RoundInvariant

  lemma {:induction false} WithoutNone(ends: seq<RoundEnd>)
    ensures Without(ends, {}) == ends
  {
    if ends != [] {
      WithoutNone(ends[..|ends| - 1]);
      assert ends == ends[..|ends| - 1] + [ends[|ends| - 1]];
    }
  }

  /** The next sheet in id order extends the bars taken so far. */
  lemma StatusBarsGrow(sheets: map<Id, Bars>, done: set<Id>, m: Id)
    requires forall i :: i in done ==> i < m
    ensures StatusBars(sheets, done + {m}) ==
      StatusBars(sheets, done) + if Writable(sheets, m) then [SheetStatusBars(m, sheets[m])] else []
  {
  }

  class Room {
    var session: MatchSession
    const db: Database
    var ends: seq<RoundEnd>
    var unwritten: set<Id>
    var pending: map<Id, TurnWrites>
    var board: Board
    const mapped: bool

    // What an observer of the match notes.
    ghost var closedTurns: seq<Id>
    ghost var accepted: map<Id, TurnWrites>

    ghost function Now(): World
      reads this, session, db
    {
      World(session.State(), db.disk, ends, unwritten, pending, board, mapped,
        Log(closedTurns, db.attempts, accepted),
            db.closes)
    }

    /** A room is born: the session is rehydrated from the database, or starts on a pair nobody has
        written, which is written now. */
    constructor (db: Database, mapped: bool, nextId: Id, birthUp: bool, ghost log: Log)
      requires log.attempts == db.attempts
      modifies db
      ensures this.db == db && this.mapped == mapped
      ensures Now() == EnsureActive(
        World(Rehydrated(old(db.disk), nextId), old(db.disk), [], {}, map[],
              if old(db.disk).board.Some? then old(db.disk).board.value else [], mapped, log, old(db.closes)), birthUp)
    {
      this.db := db;
      this.mapped := mapped;
      var found := db.FindActiveSession();
      var state :=
        if found.Some? && found.value in db.disk.rounds
        then SessionState(db.disk.rounds[found.value].scene, found.value, db.disk.rounds[found.value].mode,
                          0, None, false, true, true, db.disk.sheets, nextId)
        else SessionState(nextId, nextId + 1, Free, 0, None, false, false, false, db.disk.sheets, nextId + 2);
      session := new MatchSession(state);
      ends, unwritten, pending := [], {}, map[];
      board := if db.disk.board.Some? then db.disk.board.value else [];
      closedTurns, accepted := log.closed, log.accepted;
      new;
      EnsureActiveSceneAndRound(birthUp);
    }

    // -------------------------------------------------------------- unwritten.go

    method SheetsToWrite(damaged: seq<Id>) returns (out: set<Id>)
      ensures out == unwritten + ToSet(damaged)
    {
      out := unwritten;
      for i := 0 to |damaged|
        invariant out == unwritten + ToSet(damaged[..i])
      {
        assert ToSet(damaged[..i + 1]) == ToSet(damaged[..i]) + {damaged[i]} by { ToSetGrows(damaged, i); }
        out := out + {damaged[i]};
      }
      assert damaged[..|damaged|] == damaged;
    }

    lemma ToSetGrows(ids: seq<Id>, i: nat)
      requires i < |ids|
      ensures ToSet(ids[..i + 1]) == ToSet(ids[..i]) + {ids[i]}
    {
    }

    method MarkSheetsUnwritten(damaged: seq<Id>)
      modifies this`unwritten
      ensures unwritten == old(unwritten) + ToSet(damaged)
    {
      for i := 0 to |damaged|
        invariant unwritten == old(unwritten) + ToSet(damaged[..i])
      {
        assert ToSet(damaged[..i + 1]) == ToSet(damaged[..i]) + {damaged[i]} by { ToSetGrows(damaged, i); }
        unwritten := unwritten + {damaged[i]};
      }
      assert damaged[..|damaged|] == damaged;
    }

    method ForgetSheetsWritten(written: set<Id>)
      modifies this`unwritten
      ensures unwritten == old(unwritten) - written
    {
      var todo := written;
      while todo != {}
        invariant todo <= written && unwritten == old(unwritten) - (written - todo)
        decreases |todo|
      {
        var id :| id in todo;
        unwritten := unwritten - {id};
        todo := todo - {id};
      }
    }

    /** The three bars of each sheet in id order, leaving out a sheet that misses one. */
    method StatusBarsOf(ids: set<Id>) returns (out: seq<SheetStatusBars>)
      ensures out == StatusBars(session.sheets, ids)
    {
      out := [];
      var todo := ids;
      while todo != {}
        invariant todo <= ids
        invariant forall i, j :: i in ids - todo && j in todo ==> i < j
        invariant out == StatusBars(session.sheets, ids - todo)
        decreases |todo|
      {
        MinExists(todo);
        var m :| IsMin(todo, m);
        StatusBarsGrow(session.sheets, ids - todo, m);
        assert ids - (todo - {m}) == (ids - todo) + {m};
        if m in session.sheets {
          var bars := session.sheets[m];
          if bars.health.Some? && bars.stamina.Some? && bars.aura.Some? {
            out := out + [SheetStatusBars(m, bars)];
          }
        }
        todo := todo - {m};
      }
      assert ids - todo == ids;
    }

    method MarkRoundEndUnwritten(end: RoundEnd)
      modifies this`ends
      ensures ends == MarkEnd(old(ends), end)
    {
      for i := 0 to |ends|
        invariant ends == old(ends)
        invariant forall k :: 0 <= k < i ==> ends[k].round.id != end.round.id
      {
        if ends[i].round.id == end.round.id { return; }
      }
      ends := ends + [end];
    }

    method ForgetRoundEndsWritten(written: seq<RoundEnd>)
      modifies this`ends
      ensures ends == Without(old(ends), EndIds(written))
    {
      if |written| == 0 {
        WithoutNone(ends);
        assert EndIds(written) == {};
        return;
      }
      var done: set<Id> := {};
      for i := 0 to |written|
        invariant done == EndIds(written[..i]) && ends == old(ends)
      {
        EndsGrow(written[..i], written[i]);
        assert written[..i + 1] == written[..i] + [written[i]];
        done := done + {written[i].round.id};
      }
      assert written[..|written|] == written;
      var kept: seq<RoundEnd> := [];
      for i := 0 to |ends|
        invariant ends == old(ends)
        invariant kept == Without(ends[..i], done)
      {
        assert ends[..i + 1][..i] == ends[..i];
        if ends[i].round.id !in done { kept := kept + [ends[i]]; }
      }
      assert ends[..|ends|] == ends;
      ends := kept;
    }

    method MarkRoundPersistedIfActive(written: Id)
      modifies session
      ensures session.State() == MarkedPersisted(old(session.State()), written)
    {
      if session.round == written { session.MarkRoundPersisted(); }
    }

    // -------------------------------------------------------------- history_record.go

    method EnsureSceneAndRoundRows(sc: SceneSnap, rd: RoundSnap, up: bool) returns (ok: bool)
      modifies this`ends, session, db
      ensures ok == EnsureOk(old(Now()), up)
      ensures Now() == EnsureRows(old(Now()), sc, rd, up)
    {
      var carried := ends;
      if |carried| == 0 {
        ok := db.EnsureSceneAndRound(sc, rd, up);
      } else {
        ok := db.PersistRoundClose(carried, sc, rd, up);
      }
      if !ok { return; }
      ForgetRoundEndsWritten(carried);
      MarkRoundPersistedIfActive(rd.id);
    }

    method EnsureActiveSceneAndRound(up: bool)
      modifies this`ends, session, db
      ensures Now() == EnsureActive(old(Now()), up)
    {
      if session.roundPersisted { return; }
      var ok := EnsureSceneAndRoundRows(session.State().SceneNow(), session.State().RoundNow(), up);
    }

    method WriteRoundClose(sc: SceneSnap, closed: RoundSnap, next: RoundSnap, up: bool)
      modifies this`ends, session, db
      ensures Now() == RoomSpec.WriteRoundClose(old(Now()), sc, closed, next, up)
    {
      var end := RoundEnd(sc, closed);
      var all := ends + [end];
      var ok := db.PersistRoundClose(all, sc, next, up);
      if !ok {
        MarkRoundEndUnwritten(end);
        return;
      }
      ForgetRoundEndsWritten(all);
      MarkRoundPersistedIfActive(next.id);
    }

    method PersistRoundClose(closed: RoundSnap, up: bool)
      modifies this`ends, session, db
      ensures Now() == RoomSpec.WriteRoundClose(old(Now()), old(Now()).s.SceneNow(), closed, old(Now()).s.RoundNow(),
        up)
    {
      WriteRoundClose(session.State().SceneNow(), closed, session.State().RoundNow(), up);
    }

    // -------------------------------------------------------------- turn_writes.go and the holders

    method OpenTurnId() returns (t: Option<Id>)
      ensures t == OpenTurn(session.State())
    {
      t := if session.current.Some? && session.currentOpen then session.current else None;
    }

    method TakeTurnWrites(t: Id) returns (held: TurnWrites)
      modifies this`pending
      ensures held == Held(old(pending), t) && pending == old(pending) - {t}
    {
      if t !in pending { return NOTHING_HELD; }
      held := pending[t];
      pending := pending - {t};
    }

    method HoldMaster(t: Id, rec: Record)
      modifies this`pending, this`accepted
      ensures Now() == RoomSpec.HoldMaster(old(Now()), t, rec)
    {
      var w := if t in pending then pending[t] else NOTHING_HELD;
      pending := pending[t := w.(masterActions := w.masterActions + [rec])];
      ghost var a := Held(accepted, t);
      accepted := accepted[t := a.(masterActions := a.masterActions + [rec])];
    }

    method HoldCancelled(t: Id, rec: Record)
      modifies this`pending, this`accepted
      ensures Now() == RoomSpec.HoldCancelled(old(Now()), t, rec)
    {
      var w := if t in pending then pending[t] else NOTHING_HELD;
      pending := pending[t := w.(cancelledActions := w.cancelledActions + [rec])];
      ghost var a := Held(accepted, t);
      accepted := accepted[t := a.(cancelledActions := a.cancelledActions + [rec])];
    }

    method RecordMasterAction(ensureUp: bool, insertUp: bool)
      modifies this`pending, this`accepted, this`ends, session, db
      ensures Now() == RecordMaster(old(Now()), ensureUp, insertUp)
    {
      var turn := OpenTurnId();
      var sc, rd := session.State().SceneNow(), session.State().RoundNow();
      var rec := Record(session.nextId, session.scene, session.round, turn);
      session.nextId := session.nextId + 1;
      if turn.Some? {
        HoldMaster(turn.value, rec);
        return;
      }
      if !session.roundPersisted {
        var ok := EnsureSceneAndRoundRows(sc, rd, ensureUp);
        if !ok { return; }
      }
      var inserted := db.InsertMasterAction(rec, insertUp);
    }

    method WriteCancelledAction(sc: SceneSnap, rd: RoundSnap, persisted: bool, c: Cancelling)
      modifies this`ends, session, db
      ensures Now() == WriteCancelled(old(Now()), sc, rd, persisted, c)
    {
      if !persisted {
        var ok := EnsureSceneAndRoundRows(sc, rd, c.ensureUp);
        if !ok { return; }
      }
      var inserted := db.InsertCancelledAction(Record(c.action, sc.id, rd.id, None), c.insertUp);
    }

    /** The cascade of one cancel_action: with a turn open each action is held for it; otherwise each is
        written now, with the pair and the flag as they stood when the first was cancelled. */
    method CancelActions(acts: seq<Cancelling>)
      modifies this`pending, this`accepted, this`ends, session, db
      ensures Now() == Cancel(old(Now()), acts)
    {
      var turn := OpenTurnId();
      var sc, rd, persisted := session.State().SceneNow(), session.State().RoundNow(), session.roundPersisted;
      ghost var w0 := Now();
      if turn.Some? {
        for i := 0 to |acts|
          invariant session == old(session)
          invariant Now() == HoldAll(w0, turn.value, acts[..i]) && Now().s == w0.s
        {
          assert acts[..i + 1][..i] == acts[..i];
          HoldCancelled(turn.value, Record(acts[i].action, session.scene, session.round, turn));
        }
      } else {
        for i := 0 to |acts|
          invariant session == old(session)
          invariant Now() == WriteAllCancelled(w0, sc, rd, persisted, acts[..i])
        {
          assert acts[..i + 1][..i] == acts[..i];
          WriteCancelledAction(sc, rd, persisted, acts[i]);
        }
      }
      assert acts[..|acts|] == acts;
    }

    // -------------------------------------------------------------- board.go

    method BoardSnapshot() returns (b: Option<Board>)
      ensures b == RoomSpec.BoardSnapshot(Now())
    {
      b := if mapped then Some(board) else None;
    }

    method PersistBoardOutsideTurn(up: bool)
      modifies db
      ensures Now() == RoomSpec.PersistBoardOutsideTurn(old(Now()), up)
    {
      var turn := OpenTurnId();
      if turn.Some? { return; }
      var b := BoardSnapshot();
      if b.None? { return; }
      var ok := db.SaveBoard(b.value, up);
    }

    method Touch(t: Option<Id>, touches: bool)
      modifies this`board, session
      ensures Now() == RoomSpec.Touch(old(Now()), t, touches)
    {
      if touches {
        board := board + [Change(session.nextId, t)];
        session.nextId := session.nextId + 1;
      }
    }

    // -------------------------------------------------------------- room.go

    /** The transaction failed: the turn is lost, its sheets are remembered, and the round's end, if it
        ended, is salvaged at once. */
    method SalvageLostTurn(scene: SceneSnap, round: RoundSnap, next: Option<RoundSnap>, damaged: seq<Id>, up: bool)
      modifies this`unwritten, this`ends, session, db
      ensures var w := old(Now());
        var lost := w.(unwritten := RoomSpec.SheetsToWrite(w, damaged));
        Now() == if next.Some? then RoomSpec.WriteRoundClose(lost, scene, round, next.value, up) else lost
    {
      MarkSheetsUnwritten(damaged);
      if next.Some? { WriteRoundClose(scene, round, next.value, up); }
    }

    /** The transaction committed: what it wrote is forgotten, and the session told if the round it left
        active still is. */
    method ForgetWritten(sheets: set<Id>, carried: seq<RoundEnd>, written: Id)
      modifies this`unwritten, this`ends, session
      ensures var w := old(Now());
        Now() == Marked(w.(unwritten := w.unwritten - sheets, ends := Without(w.ends, EndIds(carried))), written)
    {
      ForgetSheetsWritten(sheets);
      ForgetRoundEndsWritten(carried);
      MarkRoundPersistedIfActive(written);
    }

    method PersistClosedTurn(t: Id, closedIn: Option<RoundSnap>, damaged: seq<Id>, turnUp: bool, salvageUp: bool)
      modifies this`pending, this`unwritten, this`ends, session, db
      ensures Now() == RoomSpec.PersistClosedTurn(old(Now()), t, closedIn, damaged, turnUp, salvageUp)
    {
      ghost var w0 := Now();
      var scene, round := session.State().SceneNow(), session.State().RoundNow();
      var next: Option<RoundSnap> := None;
      if closedIn.Some? {
        if round.id != closedIn.value.id { next := Some(round); }
        round := closedIn.value;
      }
      var held := TakeTurnWrites(t);
      var snapshot := BoardSnapshot();
      var sheets := SheetsToWrite(damaged);
      var bars := StatusBarsOf(sheets);
      var carried := ends;
      var data := TurnClose(scene, round, t, next, carried, held, bars, snapshot);
      assert data == CloseData(w0, t, closedIn, damaged);
      var ok := db.PersistTurnClose(data, turnUp);
      if !ok {
        SalvageLostTurn(scene, round, next, damaged, salvageUp);
        return;
      }
      ForgetWritten(sheets, carried, if next.Some? then next.value.id else round.id);
    }

    method CloseHalf(res: Option<NextResult>, escapes: bool, turnUp: bool, endUp: bool)
      modifies this, session, db
      ensures session == old(session)
      ensures Now() == AfterClose(old(Now()), res, escapes, turnUp, endUp)
    {
      if res.Some? && res.value.closedTurn.Some? {
        Touch(res.value.closedTurn, escapes);
        PersistClosedTurn(res.value.closedTurn.value, res.value.closedRound, res.value.damaged, turnUp, endUp);
      }
    }

    /** What is left of the verb once the closed half is handled. */
    method OpenedHalf(res: Option<NextResult>, err: bool, moves: bool, endUp: bool)
      requires !err ==> res.Some?
      modifies this`board, this`ends, session, db
      ensures Now() == OpenedOrEnded(old(Now()), res, err, moves, endUp)
    {
      if err { return; }
      if res.value.closedRound.Some? {
        if res.value.closedTurn.None? { PersistRoundClose(res.value.closedRound.value, endUp); }
        return;
      }
      if res.value.openedTurn.None? { return; }
      Touch(res.value.openedTurn, moves);
    }

    /** The use case under the lock; an observer notes the turn it closed. */
    method ExecuteOpenNext(c: Command) returns (res: Option<NextResult>, err: bool)
      requires c.OpenNext?
      modifies this`closedTurns, session
      ensures var (s, r, e) := OpenNextOutcome(old(session.State()), c.pick, c.hits, c.canClose, c.at);
        res == r && err == e && Now() == NoteClosed(old(Now()).(s := s), ClosedTurn(old(session.State())))
      ensures !err ==> res.Some?
    {
      ghost var closing := ClosedTurn(session.State());
      res, err := session.ExecuteOpenNext(c.pick, c.hits, c.canClose, c.at);
      if closing.Some? { closedTurns := closedTurns + [closing.value]; }
    }

    method OpenNextAction(c: Command)
      requires c.OpenNext?
      modifies this, session, db
      ensures session == old(session)
      ensures Now() == DoOpenNext(old(Now()), c)
    {
      var res, err := ExecuteOpenNext(c);
      CloseHalf(res, c.escapes, c.turnUp, c.endUp);
      OpenedHalf(res, err, c.moves, c.endUp);
    }

    method ExecutePull(c: Command) returns (res: Option<NextResult>, err: bool)
      requires c.Pull?
      modifies this`closedTurns, session
      ensures var (s, r, e) := PullOutcome(old(session.State()), c.blocked, c.found, c.hits);
        && res == r && err == e
        && Now() == if c.blocked then old(Now()).(s := s)
              else NoteClosed(old(Now()).(s := s), ClosedTurn(old(session.State())))
      ensures !err ==> res.Some?
    {
      ghost var closing := if c.blocked then None else ClosedTurn(session.State());
      res, err := session.ExecutePull(c.blocked, c.found, c.hits);
      if closing.Some? { closedTurns := closedTurns + [closing.value]; }
    }

    method PullAction(c: Command)
      requires c.Pull?
      modifies this, session, db
      ensures session == old(session)
      ensures Now() == DoPull(old(Now()), c)
    {
      var res, err := ExecutePull(c);
      CloseHalf(res, c.escapes, c.turnUp, false);
      OpenedHalf(res, err, c.moves, false);
    }

    method CloseTurn(c: Command)
      requires c.CloseTurn?
      modifies this, session, db
      ensures session == old(session)
      ensures Now() == DoCloseTurn(old(Now()), c)
    {
      var res, err := session.ExecuteClose(c.confirm, c.awaiting, c.hits);
      if err || res.value.refused || res.value.closedTurn.None? { return; }
      closedTurns := closedTurns + [res.value.closedTurn.value];
      Touch(res.value.closedTurn, c.escapes);
      PersistClosedTurn(res.value.closedTurn.value, None, res.value.damaged, c.turnUp, false);
    }

    method ChangeScene(c: Command)
      requires c.ChangeScene?
      modifies this, session, db
      ensures session == old(session)
      ensures Now() == DoChangeScene(old(Now()), c)
    {
      var sceneWasPersisted := session.scenePersisted;
      var oldEnd := session.ChangeScene(c.at);
      if oldEnd.None? { return; }
      var sc, rd := session.State().SceneNow(), session.State().RoundNow();
      if !sceneWasPersisted {
        MarkRoundEndUnwritten(oldEnd.value);
      } else {
        var closed := db.CloseSceneAndRound(oldEnd.value.scene.id, oldEnd.value.round.id, c.at, c.closeUp);
        if !closed { MarkRoundEndUnwritten(oldEnd.value); }
      }
      var ok := EnsureSceneAndRoundRows(sc, rd, c.birthUp);
    }

    method ChangeRoundMode(c: Command)
      requires c.ChangeMode?
      modifies this, session, db
      ensures session == old(session)
      ensures Now() == DoChangeMode(old(Now()), c)
    {
      var from := session.mode;
      session.SetRoundMode(c.mode);
      var sc, rd := session.State().SceneNow(), session.State().RoundNow();
      var ok := EnsureSceneAndRoundRows(sc, rd, c.ensureUp);
      if !ok || from == c.mode { return; }
      var recorded := db.InsertEvent(ModeEvent(rd.id, from, c.mode), c.eventUp);
    }

    method MasterAction(c: Command)
      requires c.MasterAction?
      modifies this, session, db
      ensures session == old(session)
      ensures Now() == DoMasterAction(old(Now()), c)
    {
      var turn := OpenTurnId();
      Touch(turn, c.touches);
      PersistBoardOutsideTurn(c.boardUp);
      RecordMasterAction(c.ensureUp, c.insertUp);
    }

    /** The message loop: every command is one step of RoomSpec, so what is proved of its runs is true of
        this object. */
    method Handle(c: Command)
      requires !c.EditSheet? && !c.Restart?
      modifies this, session, db
      ensures session == old(session)
      ensures Now() == Step(old(Now()), c)
    {
      match c {
        case OpenNext(_, _, _, _, _, _, _, _) => OpenNextAction(c);
        case Pull(_, _, _, _, _, _) => PullAction(c);
        case CloseTurn(_, _, _, _, _) => CloseTurn(c);
        case ChangeScene(_, _, _) => ChangeScene(c);
        case ChangeMode(_, _, _) => ChangeRoundMode(c);
        case MasterAction(_, _, _, _) => MasterAction(c);
        case CancelActions(acts) => CancelActions(acts);
      }
    }
  }
}
