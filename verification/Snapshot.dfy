/** Saving the board and loading it back. */
module Snapshot {
  import opened Prelude
  import opened Tabletop

  /** A stored slot as it reads back from JSON: a kind and whichever coordinates are there. */
  datatype StoredSlot = StoredSlot(kind: string, col: Option<int>, row: Option<int>, q: Option<int>, r: Option<int>)

  datatype StoredPiece = StoredPiece(id: Id, character: Id, slot: StoredSlot, z: real, visible: bool)

  datatype Wall = Wall(id: Id, segment: nat)

  datatype Conversion = Converted(piece: Piece) | UnknownKind

  /** payloadToPiece: anything that is not hex is written in the square shape, under its own kind. */
  function PayloadToPiece(p: Piece): StoredPiece {
    var slot :=
      if p.slot.kind == "hex" then StoredSlot("hex", None, None, Some(OrZero(p.slot.q)), Some(OrZero(p.slot.r)))
      else StoredSlot(p.slot.kind, Some(OrZero(p.slot.col)), Some(OrZero(p.slot.row)), None, None);
    StoredPiece(p.id, p.character, slot, p.z, if p.visible.Some? then p.visible.value else true)
  }

  /** pieceToPayload: a kind it does not know is refused. */
  function PieceToPayload(p: StoredPiece): Conversion {
    if p.slot.kind == "hex" then
      Converted(Piece(p.id, p.character, Slot("hex", None, None, p.slot.q, p.slot.r), p.z, Some(p.visible)))
    else if p.slot.kind == "square" then
      Converted(Piece(p.id, p.character, Slot("square", p.slot.col, p.slot.row, None, None), p.z, Some(p.visible)))
    else UnknownKind
  }

  // ---------------------------------------------------------------- a row of things kept by id

  /** Everything in m, in id order. It is a function of m alone, so no iteration order shows in it and
      saving twice writes the same row. */
  ghost function Row<T(!new)>(m: map<Id, T>): seq<T>
    decreases m.Keys
  {
    if m == map[] then []
    else
      assert m.Keys != {};
      MaxExists(m.Keys);
      var top :| IsMax(m.Keys, top);
      Row(m - {top}) + [m[top]]
  }

  lemma RowEnds<T(!new)>(m: map<Id, T>, top: Id)
    requires IsMax(m.Keys, top)
    ensures Row(m) == Row(m - {top}) + [m[top]]
  {
    assert m != map[];
    assert forall k :: IsMax(m.Keys, k) ==> k == top;
  }

  lemma Highest<T(!new)>(m: map<Id, T>) returns (top: Id)
    requires m != map[]
    ensures IsMax(m.Keys, top)
  {
    assert m.Keys != {};
    MaxExists(m.Keys);
    top :| IsMax(m.Keys, top);
  }

  /** Each thing is kept under its own id. */
  ghost predicate KeyedBy<T(!new)>(m: map<Id, T>, key: T -> Id) { forall id :: id in m ==> key(m[id]) == id }

  /** What the row is: each entry is the one kept under its id, and none is missing. */
  lemma {:induction false} RowContents<T(!new)>(m: map<Id, T>, key: T -> Id)
    requires KeyedBy(m, key)
    ensures |Row(m)| == |m|
    ensures forall i :: 0 <= i < |Row(m)| ==> key(Row(m)[i]) in m && Row(m)[i] == m[key(Row(m)[i])]
    decreases m.Keys
  {
    if m != map[] {
      var top := Highest(m);
      var rest := m - {top};
      RowEnds(m, top);
      RowContents(rest, key);
      assert rest.Keys == m.Keys - {top} && |m| == |m.Keys| && |rest| == |rest.Keys|;
      assert forall i :: 0 <= i < |Row(rest)| ==> Row(m)[i] == Row(rest)[i];
    }
  }

  /** And its ids rise. */
  lemma {:induction false} RowAscends<T(!new)>(m: map<Id, T>, key: T -> Id)
    requires KeyedBy(m, key)
    ensures forall i, j :: 0 <= i < j < |Row(m)| ==> key(Row(m)[i]) < key(Row(m)[j])
    decreases m.Keys
  {
    if m != map[] {
      var top := Highest(m);
      var rest := m - {top};
      RowEnds(m, top);
      RowAscends(rest, key);
      RowContents(rest, key);
      forall i, j | 0 <= i < j < |Row(m)| ensures key(Row(m)[i]) < key(Row(m)[j]) {
        assert Row(m)[i] == Row(rest)[i] && key(Row(rest)[i]) in rest;
        if j < |Row(rest)| { assert Row(m)[j] == Row(rest)[j]; }
      }
    }
  }

  /** Places one more thing in a row kept in id order: what sorting by id does to the things as they come. */
  function InsertById<T>(row: seq<T>, x: T, key: T -> Id): seq<T> {
    if row == [] || key(row[|row| - 1]) <= key(x) then row + [x]
    else InsertById(row[..|row| - 1], x, key) + [row[|row| - 1]]
  }

  lemma {:induction false} InsertByIdRow<T(!new)>(m: map<Id, T>, x: T, key: T -> Id)
    requires KeyedBy(m, key) && key(x) !in m
    ensures InsertById(Row(m), x, key) == Row(m[key(x) := x])
    decreases m.Keys
  {
    var all := m[key(x) := x];
    if m == map[] {
      RowEnds(all, key(x));
      assert all - {key(x)} == map[];
    } else {
      var top := Highest(m);
      RowEnds(m, top);
      if top < key(x) {
        RowEnds(all, key(x));
        assert all - {key(x)} == m;
      } else {
        RowEnds(all, top);
        InsertByIdRow(m - {top}, x, key);
        assert all - {top} == (m - {top})[key(x) := x];
        assert Row(m)[..|Row(m)| - 1] == Row(m - {top});
      }
    }
  }

  /** The values of a map, in whatever order it gives them, sorted by id. */
  method SortedById<T(!new)>(m: map<Id, T>, key: T -> Id) returns (row: seq<T>)
    requires KeyedBy(m, key)
    ensures row == Row(m)
  {
    row := [];
    var todo := m.Keys;
    ghost var done: map<Id, T> := map[];
    while todo != {}
      invariant todo <= m.Keys && done == map id | id in m && id !in todo :: m[id]
      invariant row == Row(done)
      decreases |todo|
    {
      var id :| id in todo;
      InsertByIdRow(done, m[id], key);
      row := InsertById(row, m[id], key);
      done := done[id := m[id]];
      todo := todo - {id};
    }
    assert done == m;
  }

  // ---------------------------------------------------------------- the room's two routines

  /** Pieces and walls are kept under their own ids. */
  ghost predicate Keyed(pieces: Pieces) { forall id :: id in pieces ==> pieces[id].id == id }

  function Stored(pieces: Pieces): map<Id, StoredPiece> { map id | id in pieces :: PayloadToPiece(pieces[id]) }

  const PIECE_ID := (p: StoredPiece) => p.id
  const WALL_ID := (w: Wall) => w.id

  /** The board's row; grid and bg are carried as they are. */
  datatype BoardRow = BoardRow(pieces: seq<StoredPiece>, walls: seq<Wall>, grid: nat, bg: Option<nat>)

  /** boardSnapshotLocked. */
  method BoardSnapshot(pieces: Pieces, walls: map<Id, Wall>, grid: nat, bg: Option<nat>) returns (row: BoardRow)
    requires Keyed(pieces) && KeyedBy(walls, WALL_ID)
    ensures row == BoardRow(Row(Stored(pieces)), Row(walls), grid, bg)
  {
    var ps := SortedById(Stored(pieces), PIECE_ID);
    var ws := SortedById(walls, WALL_ID);
    row := BoardRow(ps, ws, grid, bg);
  }

  /** What loading a row installs: a piece whose slot kind is unknown is skipped. */
  function Loaded(row: seq<StoredPiece>): Pieces {
    if row == [] then map[]
    else
      var before := Loaded(row[..|row| - 1]);
      match PieceToPayload(row[|row| - 1])
      case Converted(p) => before[p.id := p]
      case UnknownKind => before
  }

  function LoadedWalls(row: seq<Wall>): map<Id, Wall> {
    if row == [] then map[] else LoadedWalls(row[..|row| - 1])[row[|row| - 1].id := row[|row| - 1]]
  }

  method LoadBoard(row: BoardRow) returns (pieces: Pieces, walls: map<Id, Wall>, grid: nat, bg: Option<nat>)
    ensures pieces == Loaded(row.pieces) && walls == LoadedWalls(row.walls) && grid == row.grid && bg == row.bg
  {
    pieces := map[];
    for i := 0 to |row.pieces|
      invariant pieces == Loaded(row.pieces[..i])
    {
      assert row.pieces[..i + 1][..i] == row.pieces[..i];
      var c := PieceToPayload(row.pieces[i]);
      if c.Converted? { pieces := pieces[c.piece.id := c.piece]; }
    }
    assert row.pieces[..|row.pieces|] == row.pieces;
    walls := map[];
    for i := 0 to |row.walls|
      invariant walls == LoadedWalls(row.walls[..i])
    {
      assert row.walls[..i + 1][..i] == row.walls[..i];
      walls := walls[row.walls[i].id := row.walls[i]];
    }
    assert row.walls[..|row.walls|] == row.walls;
    grid, bg := row.grid, row.bg;
  }

  // ---------------------------------------------------------------- the round trip

  predicate KnownKind(s: Slot) { s.kind == "hex" || s.kind == "square" }

  /** What a piece reads back as: shown unless it was hidden, coordinates 0 where missing, and nothing of
      the shape its slot does not have. */
  function Normal(p: Piece): Piece {
    var slot :=
      if p.slot.kind == "hex" then Slot("hex", None, None, Some(OrZero(p.slot.q)), Some(OrZero(p.slot.r)))
      else Slot(p.slot.kind, Some(OrZero(p.slot.col)), Some(OrZero(p.slot.row)), None, None);
    p.(slot := slot, visible := Some(p.visible != Some(false)))
  }

  lemma PieceRoundTrip(p: Piece)
    ensures PieceToPayload(PayloadToPiece(p)) == if KnownKind(p.slot) then Converted(Normal(p)) else UnknownKind
    ensures AB(Normal(p).slot) == AB(p.slot) && Normal(Normal(p)) == Normal(p)
    ensures PayloadToPiece(Normal(p)) == PayloadToPiece(p)
  {
  }

  /** What a save and a load leave: every piece of known kind, normalised; no other piece. */
  function Reloaded(pieces: Pieces): Pieces { map id | id in pieces && KnownKind(pieces[id].slot) ::
      Normal(pieces[id]) }

  lemma {:induction false} SaveThenLoad(pieces: Pieces)
    requires Keyed(pieces)
    ensures Loaded(Row(Stored(pieces))) == Reloaded(pieces)
    decreases pieces.Keys
  {
    if pieces == map[] {
      assert Reloaded(pieces) == map[] && Stored(pieces) == map[];
    } else {
      var top := Highest(pieces);
      var rest := pieces - {top};
      RowEnds(Stored(pieces), top);
      assert Stored(pieces) - {top} == Stored(rest);
      SaveThenLoad(rest);
      PieceRoundTrip(pieces[top]);
      assert Row(Stored(pieces))[..|Row(Stored(pieces))| - 1] == Row(Stored(rest));
      ReloadedGrows(pieces, top);
    }
  }

  lemma ReloadedGrows(pieces: Pieces, m: Id)
    requires m in pieces
    ensures Reloaded(pieces) ==
      if KnownKind(pieces[m].slot) then Reloaded(pieces - {m})[m := Normal(pieces[m])] else Reloaded(pieces - {m})
  {
    var rest := pieces - {m};
    assert forall id :: id in rest ==> rest[id] == pieces[id];
  }

  /** Walls read back as they were. */
  lemma {:induction false} WallsRoundTrip(walls: map<Id, Wall>)
    requires KeyedBy(walls, WALL_ID)
    ensures LoadedWalls(Row(walls)) == walls
    decreases walls.Keys
  {
    if walls != map[] {
      var top := Highest(walls);
      RowEnds(walls, top);
      WallsRoundTrip(walls - {top});
      assert Row(walls)[..|Row(walls)| - 1] == Row(walls - {top});
      assert walls[top].id == WALL_ID(walls[top]) == top;
      assert walls == (walls - {top})[top := walls[top]];
    }
  }

  /** A piece survives a reload iff its slot is hex or square, and then it stands where it stood. */
  lemma SurvivesReloadIff(pieces: Pieces, id: Id)
    requires Keyed(pieces) && id in pieces
    ensures var after := Loaded(Row(Stored(pieces)));
      && (id in after <==> KnownKind(pieces[id].slot))
      && (id in after ==>
            && AB(after[id].slot) == AB(pieces[id].slot) && after[id].slot.kind == pieces[id].slot.kind
            && after[id].z == pieces[id].z && after[id].character == pieces[id].character
            && (after[id].visible == Some(false) <==> pieces[id].visible == Some(false)))
  {
    SaveThenLoad(pieces);
    PieceRoundTrip(pieces[id]);
  }

  function Normalised(pieces: Pieces): Pieces { map id | id in pieces :: Normal(pieces[id]) }

  /** For a board of hex and square slots, a load gives it back normalised, walls and all, and saving what
      was loaded writes the same row again. */
  lemma SavedAgainIsTheSame(pieces: Pieces, walls: map<Id, Wall>)
    requires Keyed(pieces) && KeyedBy(walls, WALL_ID) && forall id :: id in pieces ==> KnownKind(pieces[id].slot)
    ensures var loaded := Loaded(Row(Stored(pieces)));
      loaded == Normalised(pieces) && Row(Stored(loaded)) == Row(Stored(pieces))
    ensures Row(LoadedWalls(Row(walls))) == Row(walls)
  {
    SaveThenLoad(pieces);
    WallsRoundTrip(walls);
    assert Reloaded(pieces) == Normalised(pieces);
    forall id | id in pieces ensures Stored(Normalised(pieces))[id] == Stored(pieces)[id] {
      PieceRoundTrip(pieces[id]);
    }
    assert Stored(Normalised(pieces)) == Stored(pieces);
  }

  /** No move of a match makes a slot kind unknown: moves and escapes keep the shape, and a new piece takes
      the grid's. */
  lemma MatchKeepsKinds(pieces: Pieces, reactions: seq<Reaction>, outcomes: seq<Outcome>, actor: Id, pos: Cell,
      hexGrid: bool)
    requires forall id :: id in pieces ==> KnownKind(pieces[id].slot)
    ensures forall id :: id in Moved(pieces, actor, pos) ==> KnownKind(Moved(pieces, actor, pos)[id].slot)
    ensures forall id :: id in Escaped(pieces, reactions, outcomes) ==>
      KnownKind(Escaped(pieces, reactions, outcomes)[id].slot)
    ensures KnownKind(SlotFor(hexGrid, pos))
  {
  }
}
