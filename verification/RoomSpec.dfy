/** What the room's routines do to the whole world — the session, the room's memory of failed
    writes, the database — as functions on one value. Granularity: commands. A command's in-memory
    transition and its writes are one step, not interleaved with other commands (one master read
    pump); every repository call is atomic and may fail. */
module RoomSpec {
  import opened Prelude
  import opened Store
  import opened Session

  /** What an observer of one match would note: the turns the session closed and the PersistTurnClose
      calls the room made, both in order; and what was accepted while each turn was open. */
  datatype Log = Log(closed: seq<Id>, attempts: seq<TurnClose>, accepted: map<Id, TurnWrites>)

  /** s is the session; ends, unwritten and pending are the room's unwrittenRoundEnds,
      unwrittenSheets (their characters: the map's values are the session's own sheets) and
      pendingTurns; board is the board in memory, mapped whether a map is attached; closes are the
      PersistRoundClose calls made so far. */
  datatype World = World(
    s: SessionState, disk: Disk, ends: seq<RoundEnd>, unwritten: set<Id>, pending: map<Id, TurnWrites>,
    board: Board, mapped: bool, log: Log, closes: seq<RoundCloseCall>)

  // ---------------------------------------------------------------- unwritten.go

  function EndIds(ends: seq<RoundEnd>): set<Id> {
    set i | 0 <= i < |ends| :: ends[i].round.id
  }

  /** ends without those whose round is in done. */
  function Without(ends: seq<RoundEnd>, done: set<Id>): seq<RoundEnd> {
    if ends == [] then []
    else
      var rest := Without(ends[..|ends| - 1], done);
      if ends[|ends| - 1].round.id in done then rest else rest + [ends[|ends| - 1]]
  }

  function MarkEnd(ends: seq<RoundEnd>, end: RoundEnd): seq<RoundEnd> {
    if end.round.id in EndIds(ends) then ends else ends + [end]
  }

  function ToSet(ids: seq<Id>): set<Id> { set i | 0 <= i < |ids| :: ids[i] }

  function SheetsToWrite(w: World, damaged: seq<Id>): set<Id> { w.unwritten + ToSet(damaged) }

  predicate Writable(sheets: map<Id, Bars>, c: Id) { c in sheets && sheets[c].Complete() }

  /** The bars of each complete sheet among ids, one entry per sheet in id order. */
  ghost function StatusBars(sheets: map<Id, Bars>, ids: set<Id>): seq<SheetStatusBars> {
    if ids == {} then []
    else
      MaxExists(ids);
      var m :| IsMax(ids, m);
      StatusBars(sheets, ids - {m}) + if Writable(sheets, m) then [SheetStatusBars(m, sheets[m])] else []
  }

  function Marked(w: World, written: Id): World { w.(s := MarkedPersisted(w.s, written)) }

  // ---------------------------------------------------------------- history_record.go

  predicate EnsureOk(w: World, up: bool) { up && ValidEnds(w.ends) }

  function Called(w: World, ends: seq<RoundEnd>, next: RoundSnap, ok: bool): World {
    w.(closes := w.closes + [RoundCloseCall(ends, next, ok)])
  }

  /** A pair becomes rows, with every round end still unwritten, in one transaction. */
  function EnsureRows(w: World, sc: SceneSnap, rd: RoundSnap, up: bool): World {
    var ok := EnsureOk(w, up);
    var w1 := if w.ends == [] then w else Called(w, w.ends, rd, ok);
    if ok
    then Marked(w1.(disk := RoundClose(w.disk, w.ends, sc, rd), ends := Without(w.ends, EndIds(w.ends))), rd.id)
    else w1
  }

  function EnsureActive(w: World, up: bool): World {
    if w.s.roundPersisted then w else EnsureRows(w, w.s.SceneNow(), w.s.RoundNow(), up)
  }

  /** A round's end and its successor's birth, together, with every earlier end; kept for the next
      write when it fails. */
  function WriteRoundClose(w: World, sc: SceneSnap, closed: RoundSnap, next: RoundSnap, up: bool): World {
    var end := RoundEnd(sc, closed);
    var ends := w.ends + [end];
    var ok := up && ValidEnds(ends);
    var w1 := Called(w, ends, next, ok);
    if ok
    then Marked(w1.(disk := RoundClose(w.disk, ends, sc, next), ends := Without(w.ends, EndIds(ends))), next.id)
    else w1.(ends := MarkEnd(w.ends, end))
  }

  // ---------------------------------------------------------------- turn_writes.go and the holders

  function Held(pending: map<Id, TurnWrites>, t: Id): TurnWrites {
    if t in pending then pending[t] else NOTHING_HELD
  }

  function HoldMaster(w: World, t: Id, rec: Record): World {
    var held, accepted := Held(w.pending, t), Held(w.log.accepted, t);
    w.(pending := w.pending[t := held.(masterActions := held.masterActions + [rec])],
       log := w.log.(accepted := w.log.accepted[t := accepted.(masterActions := accepted.masterActions + [rec])]))
  }

  function HoldCancelled(w: World, t: Id, rec: Record): World {
    var held, accepted := Held(w.pending, t), Held(w.log.accepted, t);
    w.(pending := w.pending[t := held.(cancelledActions := held.cancelledActions + [rec])],
       log := w.log.(accepted := w.log.accepted[t := accepted.(cancelledActions := accepted.cancelledActions + [rec])]))
  }

  function OpenTurn(s: SessionState): Option<Id> { if s.HasOpenTurn() then s.current else None }

  function MasterRow(w: World, rec: Record, up: bool): World {
    if up && RecordAcceptable(w.disk, rec)
    then w.(disk := w.disk.(masterActions := w.disk.masterActions + [rec])) else w
  }

  /** recordMasterAction: held for the open turn, or written now. */
  function RecordMaster(w: World, ensureUp: bool, insertUp: bool): World {
    var rec := Record(w.s.nextId, w.s.scene, w.s.round, OpenTurn(w.s));
    var w1 := w.(s := w.s.(nextId := w.s.nextId + 1));
    if rec.turn.Some? then HoldMaster(w1, rec.turn.value, rec)
    else if w.s.roundPersisted then MasterRow(w1, rec, insertUp)
    else
      var w2 := EnsureRows(w1, w1.s.SceneNow(), w1.s.RoundNow(), ensureUp);
      if EnsureOk(w1, ensureUp) then MasterRow(w2, rec, insertUp) else w2
  }

  /** The world a master action taken between turns is written from: its pair is rows, or was tried. */
  function RecordReady(w: World, ensureUp: bool): World {
    EnsureActive(w.(s := w.s.(nextId := w.s.nextId + 1)), ensureUp)
  }

  predicate RowTried(w: World, ensureUp: bool, insertUp: bool) {
    (w.s.roundPersisted || EnsureOk(w, ensureUp)) && insertUp
  }

  lemma RecordMasterBetween(w: World, ensureUp: bool, insertUp: bool)
    requires OpenTurn(w.s).None?
    ensures RecordMaster(w, ensureUp, insertUp) ==
      MasterRow(RecordReady(w, ensureUp), Record(w.s.nextId, w.s.scene, w.s.round, None),
        RowTried(w, ensureUp, insertUp))
  {
  }

  /** One action of a cancelled cascade, with what the database answers to its writes. */
  datatype Cancelling = Cancelling(action: Id, ensureUp: bool, insertUp: bool)

  function CancelRecord(s: SessionState, c: Cancelling): Record {
    Record(c.action, s.scene, s.round, OpenTurn(s))
  }

  function HoldAll(w: World, t: Id, acts: seq<Cancelling>): World {
    if acts == [] then w
    else HoldCancelled(HoldAll(w, t, acts[..|acts| - 1]), t, CancelRecord(w.s, acts[|acts| - 1]))
  }

  /** writeCancelledAction: persisted is the flag as it stood when the action was cancelled. */
  function WriteCancelled(w: World, sc: SceneSnap, rd: RoundSnap, persisted: bool, c: Cancelling): World {
    var rec := Record(c.action, sc.id, rd.id, None);
    var w1 := if persisted then w else EnsureRows(w, sc, rd, c.ensureUp);
    if !persisted && !EnsureOk(w, c.ensureUp) then w1
    else if c.insertUp && RecordAcceptable(w1.disk, rec)
    then w1.(disk := w1.disk.(cancelledActions := w1.disk.cancelledActions + [rec]))
    else w1
  }

  function WriteAllCancelled(w: World, sc: SceneSnap, rd: RoundSnap, persisted: bool, acts: seq<Cancelling>): World {
    if acts == [] then w
    else WriteCancelled(WriteAllCancelled(w, sc, rd, persisted, acts[..|acts| - 1]), sc, rd, persisted,
        acts[|acts| - 1])
  }

  function Cancel(w: World, acts: seq<Cancelling>): World {
    if w.s.HasOpenTurn() then HoldAll(w, w.s.current.value, acts)
    else WriteAllCancelled(w, w.s.SceneNow(), w.s.RoundNow(), w.s.roundPersisted, acts)
  }

  // ---------------------------------------------------------------- board.go

  function BoardSnapshot(w: World): Option<Board> { if w.mapped then Some(w.board) else None }

  function PersistBoardOutsideTurn(w: World, up: bool): World {
    if w.s.HasOpenTurn() || !w.mapped || !up then w else w.(disk := w.disk.(board := Some(w.board)))
  }

  /** A change to the board in memory, made inside turn t. */
  function Touch(w: World, t: Option<Id>, touches: bool): World {
    if touches
    then w.(board := w.board + [Change(w.s.nextId, t)], s := w.s.(nextId := w.s.nextId + 1))
    else w
  }

  // ---------------------------------------------------------------- persistClosedTurn

  function Successor(s: SessionState, closedIn: Option<RoundSnap>): Option<RoundSnap> {
    if closedIn.Some? && s.round != closedIn.value.id then Some(s.RoundNow()) else None
  }

  ghost function CloseData(w: World, t: Id, closedIn: Option<RoundSnap>, damaged: seq<Id>): TurnClose {
    TurnClose(w.s.SceneNow(), if closedIn.Some? then closedIn.value else w.s.RoundNow(), t,
              Successor(w.s, closedIn), w.ends, Held(w.pending, t),
              StatusBars(w.s.sheets, SheetsToWrite(w, damaged)), BoardSnapshot(w))
  }

  /** The turn's own transaction: everything it changed, with what earlier failed writes left. When
      it fails, its sheets are remembered and the round's end, if any, is salvaged at once. */
  ghost function PersistClosedTurn(
    w: World, t: Id, closedIn: Option<RoundSnap>, damaged: seq<Id>, turnUp: bool, salvageUp: bool): World
  {
    var data := CloseData(w, t, closedIn, damaged);
    var drained := w.(pending := w.pending - {t}, log := w.log.(attempts := w.log.attempts + [data]));
    if turnUp && TurnAcceptable(w.disk, data) then
      Marked(drained.(disk := TurnTx(w.disk, data),
                      unwritten := w.unwritten - SheetsToWrite(w, damaged),
                      ends := Without(w.ends, EndIds(w.ends))),
             if data.next.Some? then data.next.value.id else data.round.id)
    else
      var lost := drained.(unwritten := SheetsToWrite(w, damaged));
      if data.next.Some? then WriteRoundClose(lost, data.scene, data.round, data.next.value, salvageUp) else lost
  }

  function NoteClosed(w: World, closed: Option<Id>): World {
    if closed.Some? then w.(log := w.log.(closed := w.log.closed + [closed.value])) else w
  }

  // ---------------------------------------------------------------- the commands

  datatype Command =
    /** escapes: the close's own changes to the board (escapes, walls); moves: the opened turn's. */
    | OpenNext(pick: Pick, hits: seq<Hit>, canClose: bool, at: Time, escapes: bool, moves: bool, turnUp: bool,
      endUp: bool)
    | Pull(blocked: bool, found: bool, hits: seq<Hit>, escapes: bool, moves: bool, turnUp: bool)
    | CloseTurn(confirm: bool, awaiting: bool, hits: seq<Hit>, escapes: bool, turnUp: bool)
    | ChangeScene(at: Time, closeUp: bool, birthUp: bool)
    | ChangeMode(mode: Mode, ensureUp: bool, eventUp: bool)
    | MasterAction(touches: bool, boardUp: bool, ensureUp: bool, insertUp: bool)
    | CancelActions(acts: seq<Cancelling>)
    /** A sheet edited over REST while the room runs. */
    | EditSheet(character: Id, bars: Bars)
    /** The process dies and the next room rehydrates from the database. */
    | Restart(birthUp: bool)

  ghost function AfterClose(w: World, res: Option<NextResult>, escapes: bool, turnUp: bool, endUp: bool): World {
    if res.Some? && res.value.closedTurn.Some? then
      var t := res.value.closedTurn.value;
      PersistClosedTurn(Touch(w, Some(t), escapes), t, res.value.closedRound, res.value.damaged, turnUp, endUp)
    else w
  }

  function AnnounceOpened(w: World, res: Option<NextResult>, moves: bool): World {
    if res.Some? then Touch(w, res.value.openedTurn, moves && res.value.openedTurn.Some?) else w
  }

  /** After the write: the opened turn is announced, or the round that ended with no turn to carry its
      end is written on its own. */
  function OpenedOrEnded(w: World, res: Option<NextResult>, err: bool, moves: bool, endUp: bool): World
    requires !err ==> res.Some?
  {
    if err then w
    else if res.value.closedRound.Some? then
      if res.value.closedTurn.None?
      then WriteRoundClose(w, w.s.SceneNow(), res.value.closedRound.value, w.s.RoundNow(), endUp)
      else w
    else AnnounceOpened(w, res, moves)
  }

  ghost function DoOpenNext(w: World, c: Command): World
    requires c.OpenNext?
  {
    var (s, res, err) := OpenNextOutcome(w.s, c.pick, c.hits, c.canClose, c.at);
    var w1 := NoteClosed(w.(s := s), ClosedTurn(w.s));
    OpenedOrEnded(AfterClose(w1, res, c.escapes, c.turnUp, c.endUp), res, err, c.moves, c.endUp)
  }

  ghost function DoPull(w: World, c: Command): World
    requires c.Pull?
  {
    var (s, res, err) := PullOutcome(w.s, c.blocked, c.found, c.hits);
    var w1 := if c.blocked then w.(s := s) else NoteClosed(w.(s := s), ClosedTurn(w.s));
    OpenedOrEnded(AfterClose(w1, res, c.escapes, c.turnUp, false), res, err, c.moves, false)
  }

  ghost function DoCloseTurn(w: World, c: Command): World
    requires c.CloseTurn?
  {
    var (s, res, err) := CloseOutcome(w.s, c.confirm, c.awaiting, c.hits);
    if err || res.value.refused || res.value.closedTurn.None? then w.(s := s)
    else
      var t := res.value.closedTurn.value;
      PersistClosedTurn(Touch(NoteClosed(w.(s := s), Some(t)), Some(t), c.escapes), t, None, res.value.damaged,
        c.turnUp, false)
  }

  function DoChangeScene(w: World, c: Command): World
    requires c.ChangeScene?
  {
    if w.s.HasOpenTurn() then w
    else
      var end := RoundEnd(SceneSnap(w.s.scene, Some(c.at)), RoundSnap(w.s.round, w.s.mode, Some(c.at)));
      var w1 := w.(s := SceneChanged(w.s));
      var w2 :=
        if !w.s.scenePersisted || !c.closeUp then w1.(ends := MarkEnd(w1.ends, end))
        else w1.(disk := ClosePair(w1.disk, w.s.scene, w.s.round, c.at));
      EnsureRows(w2, w2.s.SceneNow(), w2.s.RoundNow(), c.birthUp)
  }

  function DoChangeMode(w: World, c: Command): World
    requires c.ChangeMode?
  {
    var w1 := w.(s := w.s.(mode := c.mode));
    var w2 := EnsureRows(w1, w1.s.SceneNow(), w1.s.RoundNow(), c.ensureUp);
    if EnsureOk(w1, c.ensureUp) && w.s.mode != c.mode && c.eventUp
    then w2.(disk := w2.disk.(events := w2.disk.events + [ModeEvent(w.s.round, w.s.mode, c.mode)]))
    else w2
  }

  function DoMasterAction(w: World, c: Command): World
    requires c.MasterAction?
  {
    RecordMaster(PersistBoardOutsideTurn(Touch(w, OpenTurn(w.s), c.touches), c.boardUp), c.ensureUp, c.insertUp)
  }

  /** The session a room is born with: the open round of the open scene, or a pair nobody has written. */
  ghost function Rehydrated(d: Disk, nextId: Id): SessionState {
    var found := FindActive(d);
    if found.Some?
    then SessionState(d.rounds[found.value].scene, found.value, d.rounds[found.value].mode, 0, None, false,
                      true, true, d.sheets, nextId)
    else SessionState(nextId, nextId + 1, Free, 0, None, false, false, false, d.sheets, nextId + 2)
  }

  ghost function DoRestart(w: World, c: Command): World
    requires c.Restart?
  {
    var born := w.(s := Rehydrated(w.disk, w.s.nextId), ends := [], unwritten := {}, pending := map[],
                   board := if w.disk.board.Some? then w.disk.board.value else []);
    EnsureActive(born, c.birthUp)
  }

  ghost function Step(w: World, c: Command): World {
    match c
    case OpenNext(_, _, _, _, _, _, _, _) => DoOpenNext(w, c)
    case Pull(_, _, _, _, _, _) => DoPull(w, c)
    case CloseTurn(_, _, _, _, _) => DoCloseTurn(w, c)
    case ChangeScene(_, _, _) => DoChangeScene(w, c)
    case ChangeMode(_, _, _) => DoChangeMode(w, c)
    case MasterAction(_, _, _, _) => DoMasterAction(w, c)
    case CancelActions(acts) => Cancel(w, acts)
    case EditSheet(character, bars) =>
      if character in w.disk.sheets then w.(disk := w.disk.(sheets := w.disk.sheets[character := bars])) else w
    case Restart(_) => DoRestart(w, c)
  }

  // ---------------------------------------------------------------- runs

  /** The first room of a match: nothing of it on disk but its characters' sheets. */
  ghost function Genesis(sheets: map<Id, Bars>, mapped: bool, birthUp: bool): World {
    var d := Disk(map[], map[], map[], sheets, [], [], [], None);
    EnsureActive(World(Rehydrated(d, 0), d, [], {}, map[], [], mapped, Log([], [], map[]), []), birthUp)
  }

  ghost function Run(w: World, commands: seq<Command>): World {
    if commands == [] then w else Step(Run(w, commands[..|commands| - 1]), commands[|commands| - 1])
  }
}
