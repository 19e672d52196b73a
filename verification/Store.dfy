/** The database as the round gateway sees it: rows as a value, every repository call as one
    atomic transaction on it. A call commits whole or leaves the rows alone. */
module Store {
  import opened Prelude

  datatype Mode = Free | Race

  /** Detached copies of a live scene and round, as a write carries them. */
  datatype SceneSnap = SceneSnap(id: Id, finished: Option<Time>)
  datatype RoundSnap = RoundSnap(id: Id, mode: Mode, finished: Option<Time>)

  /** A round that ended, with the scene it ended in. */
  datatype RoundEnd = RoundEnd(scene: SceneSnap, round: RoundSnap)

  datatype RoundRow = RoundRow(scene: Id, mode: Mode, finished: Option<Time>)

  /** A master action or a cancelled action. turn is None for one recorded outside any turn. */
  datatype Record = Record(id: Id, scene: Id, round: Id, turn: Option<Id>)

  /** What happened inside one open turn and is written only with its close. */
  datatype TurnWrites = TurnWrites(masterActions: seq<Record>, cancelledActions: seq<Record>)

  const NOTHING_HELD := TurnWrites([], [])

  datatype Bar = Bar(min: int, cur: int, max: int)

  /** A sheet's three status bars; a bar may be missing. */
  datatype Bars = Bars(health: Option<Bar>, stamina: Option<Bar>, aura: Option<Bar>) {
    predicate Complete() { health.Some? && stamina.Some? && aura.Some? }
  }

  datatype SheetStatusBars = SheetStatusBars(character: Id, bars: Bars)

  /** One change to the board and the turn it was made inside, if any. A board is the changes that
      produced it, in order. */
  datatype Change = Change(id: Id, turn: Option<Id>)

  type Board = seq<Change>

  datatype ModeEvent = ModeEvent(round: Id, was: Mode, now: Mode)

  /** Everything one PersistTurnClose writes. */
  datatype TurnClose = TurnClose(
    scene: SceneSnap, round: RoundSnap, turn: Id, next: Option<RoundSnap>, ends: seq<RoundEnd>,
    held: TurnWrites, bars: seq<SheetStatusBars>, board: Option<Board>)

  /** turns maps a turn to the round it closed in. */
  datatype Disk = Disk(
    scenes: map<Id, Option<Time>>, rounds: map<Id, RoundRow>, turns: map<Id, Id>,
    sheets: map<Id, Bars>, masterActions: seq<Record>, cancelledActions: seq<Record>,
    events: seq<ModeEvent>, board: Option<Board>)

  /** One PersistRoundClose: the ends it carried, the round it wrote after them, and its answer. */
  datatype RoundCloseCall = RoundCloseCall(ends: seq<RoundEnd>, next: RoundSnap, committed: bool)

  // ---------------------------------------------------------------- the rows each call leaves

  function UpsertScene(d: Disk, sc: SceneSnap): Disk {
    var was := if sc.id in d.scenes then d.scenes[sc.id] else None;
    d.(scenes := d.scenes[sc.id := Coalesce(was, sc.finished)])
  }

  function UpsertRound(d: Disk, scene: Id, rd: RoundSnap): Disk {
    var row :=
      if rd.id in d.rounds
      then RoundRow(d.rounds[rd.id].scene, rd.mode, Coalesce(d.rounds[rd.id].finished, rd.finished))
      else RoundRow(scene, rd.mode, rd.finished);
    d.(rounds := d.rounds[rd.id := row])
  }

  /** The idempotent pair of upserts every write of a round goes through. */
  function EnsurePair(d: Disk, sc: SceneSnap, rd: RoundSnap): Disk {
    UpsertRound(UpsertScene(d, sc), sc.id, rd)
  }

  function WriteEnds(d: Disk, ends: seq<RoundEnd>): Disk {
    if ends == [] then d
    else
      var last := ends[|ends| - 1];
      EnsurePair(WriteEnds(d, ends[..|ends| - 1]), last.scene, last.round)
  }

  /** Round ends, then the round the session is in now. */
  function RoundClose(d: Disk, ends: seq<RoundEnd>, sc: SceneSnap, next: RoundSnap): Disk {
    EnsurePair(WriteEnds(d, ends), sc, next)
  }

  /** An UPDATE touches only rows that are there. */
  function ClosePair(d: Disk, scene: Id, round: Id, at: Time): Disk {
    var d' := if scene in d.scenes then d.(scenes := d.scenes[scene := Some(at)]) else d;
    if round in d'.rounds then d'.(rounds := d'.rounds[round := d'.rounds[round].(finished := Some(at))]) else d'
  }

  function WriteBars(sheets: map<Id, Bars>, bars: seq<SheetStatusBars>): map<Id, Bars> {
    if bars == [] then sheets
    else
      var last := bars[|bars| - 1];
      var written := WriteBars(sheets, bars[..|bars| - 1]);
      if last.character in written then written[last.character := last.bars] else written
  }

  function TurnTx(d: Disk, t: TurnClose): Disk {
    var closed := RoundClose(d, t.ends, t.scene, t.round);
    var born := if t.next.Some? then EnsurePair(closed, t.scene, t.next.value) else closed;
    born.(turns := born.turns[t.turn := t.round.id],
          sheets := WriteBars(born.sheets, t.bars),
          masterActions := born.masterActions + t.held.masterActions,
          cancelledActions := born.cancelledActions + t.held.cancelledActions,
          board := Coalesce(t.board, born.board))
  }

  /** An end with no finish is refused: it would be one more open round. */
  predicate ValidEnds(ends: seq<RoundEnd>) {
    forall i :: 0 <= i < |ends| ==> ends[i].round.finished.Some?
  }

  /** What PersistTurnClose refuses before, or fails on inside, its transaction: a successor without
      its predecessor's finish, an end that is not one, a turn that is already a row. */
  predicate TurnAcceptable(d: Disk, t: TurnClose) {
    && (t.next.Some? ==> t.round.finished.Some?)
    && ValidEnds(t.ends)
    && t.turn !in d.turns
  }

  /** A record's row references its scene and its round. */
  predicate RecordAcceptable(d: Disk, r: Record) {
    r.scene in d.scenes && r.round in d.rounds
  }

  // ---------------------------------------------------------------- the session to resume

  predicate OpenRound(d: Disk, r: Id) {
    r in d.rounds && d.rounds[r].finished.None?
  }

  predicate OpenScene(d: Disk, s: Id) {
    s in d.scenes && d.scenes[s].None?
  }

  /** The open round of an open scene that was born last (scene first, then round). */
  predicate Newest(d: Disk, r: Id) {
    && OpenRound(d, r)
    && OpenScene(d, d.rounds[r].scene)
    && forall q :: q in d.rounds && OpenRound(d, q) && OpenScene(d, d.rounds[q].scene) ==>
         d.rounds[q].scene < d.rounds[r].scene || (d.rounds[q].scene == d.rounds[r].scene && q <= r)
  }

  ghost function FindActive(d: Disk): Option<Id> {
    if r :| r in d.rounds && Newest(d, r) then Some(r) else None
  }

  lemma NewestIsUnique(d: Disk, a: Id, b: Id)
    requires Newest(d, a) && Newest(d, b)
    ensures a == b
  {
  }

  /** A round the query may answer: open, in a scene that is open. */
  predicate Resumable(d: Disk, r: Id) {
    && r in d.rounds && d.rounds[r].finished.None?
    && d.rounds[r].scene in d.scenes && d.scenes[d.rounds[r].scene].None?
  }

  /** Born before: in an earlier scene, or earlier in the same one. */
  predicate Before(d: Disk, q: Id, r: Id) {
    && q in d.rounds && r in d.rounds
    && (d.rounds[q].scene < d.rounds[r].scene || (d.rounds[q].scene == d.rounds[r].scene && q < r))
  }

  lemma LastExists(d: Disk, some: set<Id>) returns (last: Id)
    requires some != {} && forall r :: r in some ==> r in d.rounds
    ensures last in some && forall q :: q in some ==> q == last || Before(d, q, last)
  {
    var one :| one in some;
    last := one;
    if some != {one} {
      var r := LastExists(d, some - {one});
      last := if Before(d, one, r) then r else one;
      forall q | q in some ensures q == last || Before(d, q, last) {
        assert q == one || q in some - {one};
      }
    }
  }

  /** The session to resume is the round born last among all that are open in an open scene, however many there
      are; and there is none only when no round is. */
  lemma ResumesTheLast(d: Disk)
    ensures match FindActive(d)
      case None => forall r :: !Resumable(d, r)
      case Some(r) => Resumable(d, r) && forall q :: Resumable(d, q) ==> q == r || Before(d, q, r)
  {
    var all := set r | r in d.rounds && Resumable(d, r);
    if all != {} {
      var r := LastExists(d, all);
      assert Resumable(d, r);
      forall q | q in d.rounds && OpenRound(d, q) && OpenScene(d, d.rounds[q].scene) ensures q == r || Before(d, q, r) {
        assert Resumable(d, q);
        assert q in all;
      }
      assert Newest(d, r);
    } else {
      forall r ensures !Resumable(d, r) { assert r !in all; }
    }
    forall r | Newest(d, r) ensures Resumable(d, r) && forall q :: Resumable(d, q) ==> q == r || Before(d, q, r) {
    }
  }

  // ---------------------------------------------------------------- the repository

  /** up says whether the database answers: false fails the call and writes nothing. */
  class Database {
    var disk: Disk
    ghost var attempts: seq<TurnClose>
    ghost var closes: seq<RoundCloseCall>

    constructor (d: Disk)
      ensures disk == d && attempts == [] && closes == []
    {
      disk := d;
      attempts, closes := [], [];
    }

    method EnsureSceneAndRound(sc: SceneSnap, rd: RoundSnap, up: bool) returns (ok: bool)
      modifies this`disk
      ensures ok == up
      ensures disk == if ok then EnsurePair(old(disk), sc, rd) else old(disk)
    {
      if !up { return false; }
      disk := UpsertRound(UpsertScene(disk, sc), sc.id, rd);
      return true;
    }

    method FindActiveSession() returns (found: Option<Id>)
      ensures found == FindActive(disk)
    {
      if r :| r in disk.rounds && Newest(disk, r) {
        forall q | q in disk.rounds && Newest(disk, q) ensures q == r { NewestIsUnique(disk, q, r); }
        found := Some(r);
      } else {
        found := None;
      }
    }

    method WriteRoundEnds(tx: Disk, ends: seq<RoundEnd>) returns (out: Disk)
      ensures out == WriteEnds(tx, ends)
    {
      out := tx;
      var i := 0;
      while i < |ends|
        invariant 0 <= i <= |ends|
        invariant out == WriteEnds(tx, ends[..i])
      {
        assert ends[..i + 1][..i] == ends[..i];
        out := EnsurePair(out, ends[i].scene, ends[i].round);
        i := i + 1;
      }
      assert ends[..|ends|] == ends;
    }

    method PersistRoundClose(ends: seq<RoundEnd>, sc: SceneSnap, next: RoundSnap, up: bool) returns (ok: bool)
      modifies this`disk, this`closes
      ensures ok == (up && ValidEnds(ends))
      ensures disk == if ok then RoundClose(old(disk), ends, sc, next) else old(disk)
      ensures closes == old(closes) + [RoundCloseCall(ends, next, ok)]
    {
      closes := closes + [RoundCloseCall(ends, next, up && ValidEnds(ends))];
      if !ValidEnds(ends) || !up { return false; }
      var tx := WriteRoundEnds(disk, ends);
      disk := EnsurePair(tx, sc, next);
      return true;
    }

    method CloseSceneAndRound(scene: Id, round: Id, at: Time, up: bool) returns (ok: bool)
      modifies this`disk
      ensures ok == up
      ensures disk == if ok then ClosePair(old(disk), scene, round, at) else old(disk)
    {
      if !up { return false; }
      if scene in disk.scenes {
        disk := disk.(scenes := disk.scenes[scene := Some(at)]);
      }
      if round in disk.rounds {
        disk := disk.(rounds := disk.rounds[round := disk.rounds[round].(finished := Some(at))]);
      }
      return true;
    }

    method PersistTurnClose(t: TurnClose, up: bool) returns (ok: bool)
      modifies this`disk, this`attempts
      ensures attempts == old(attempts) + [t]
      ensures ok == (up && TurnAcceptable(old(disk), t))
      ensures ok <==>
        && up && t.turn !in old(disk).turns && (t.next.Some? ==> t.round.finished.Some?)
        && forall i :: 0 <= i < |t.ends| ==> t.ends[i].round.finished.Some?
      ensures disk == if ok then TurnTx(old(disk), t) else old(disk)
    {
      attempts := attempts + [t];
      if (t.next.Some? && t.round.finished.None?) || !ValidEnds(t.ends) { return false; }
      if t.turn in disk.turns || !up { return false; }
      var tx := WriteRoundEnds(disk, t.ends);
      tx := EnsurePair(tx, t.scene, t.round);
      if t.next.Some? {
        tx := EnsurePair(tx, t.scene, t.next.value);
      }
      tx := tx.(turns := tx.turns[t.turn := t.round.id]);
      var i := 0;
      var sheets := tx.sheets;
      while i < |t.bars|
        invariant 0 <= i <= |t.bars|
        invariant sheets == WriteBars(tx.sheets, t.bars[..i])
      {
        assert t.bars[..i + 1][..i] == t.bars[..i];
        if t.bars[i].character in sheets {
          sheets := sheets[t.bars[i].character := t.bars[i].bars];
        }
        i := i + 1;
      }
      assert t.bars[..|t.bars|] == t.bars;
      tx := tx.(sheets := sheets);
      tx := tx.(masterActions := tx.masterActions + t.held.masterActions,
                cancelledActions := tx.cancelledActions + t.held.cancelledActions);
      if t.board.Some? {
        tx := tx.(board := t.board);
      }
      disk := tx;
      return true;
    }

    method InsertMasterAction(r: Record, up: bool) returns (ok: bool)
      modifies this`disk
      ensures ok == (up && r.scene in old(disk).scenes && r.round in old(disk).rounds)
      ensures disk == if ok then old(disk).(masterActions := old(disk).masterActions + [r]) else old(disk)
    {
      if !up || r.scene !in disk.scenes || r.round !in disk.rounds { return false; }
      disk := disk.(masterActions := disk.masterActions + [r]);
      return true;
    }

    method InsertCancelledAction(r: Record, up: bool) returns (ok: bool)
      modifies this`disk
      ensures ok == (up && r.scene in old(disk).scenes && r.round in old(disk).rounds)
      ensures disk == if ok then old(disk).(cancelledActions := old(disk).cancelledActions + [r]) else old(disk)
    {
      if !up || r.scene !in disk.scenes || r.round !in disk.rounds { return false; }
      disk := disk.(cancelledActions := disk.cancelledActions + [r]);
      return true;
    }

    method InsertEvent(e: ModeEvent, up: bool) returns (ok: bool)
      modifies this`disk
      ensures ok == up
      ensures disk == if ok then old(disk).(events := old(disk).events + [e]) else old(disk)
    {
      if !up { return false; }
      disk := disk.(events := disk.events + [e]);
      return true;
    }

    method SaveBoard(b: Board, up: bool) returns (ok: bool)
      modifies this`disk
      ensures ok == up
      ensures disk == if ok then old(disk).(board := Some(b)) else old(disk)
    {
      if !up { return false; }
      disk := disk.(board := Some(b));
      return true;
    }
  }
}
