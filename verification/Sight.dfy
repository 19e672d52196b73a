/** Who may know where a piece went: the live relay, the live wire and the history each cut a move for
    each player, at different times and from different data. They must agree. */
module Sight {
  import opened Prelude
  import opened Tabletop

  type Point = (real, real)

  /** A player's visibility polygons, as the points inside them. */
  type Polygons = iset<Point>

  datatype View = Full | Left

  /** The grid's cell centres and the line of sight of a player's pieces: both are computed elsewhere. */
  datatype World = World(center: (int, int) -> Point, look: (Id, Pieces) -> Polygons)

  /** A playing room: the pieces, each player's cached polygons, who owns which character. */
  datatype Table = Table(pieces: Pieces, cache: map<Id, Polygons>, owners: map<Id, Id>, master: Id, players: seq<Id>)
  {
    function Polys(pid: Id): Polygons { if pid in cache then cache[pid] else iset{} }

    function OwnerOf(ch: Id): Option<Id> { if ch in owners then Some(owners[ch]) else None }

    /** The master and the character's owner see all of it. */
    predicate SeesAllOf(pid: Id, ch: Id) { pid == master || OwnerOf(ch) == Some(pid) }
  }

  predicate HiddenPiece(p: Piece) { p.visible == Some(false) }

  function Centre(w: World, c: Cell): Point { w.center(c.a, c.b) }

  function SlotCentre(w: World, s: Slot): Point { w.center(AB(s).0, AB(s).1) }

  // ---------------------------------------------------------------- the gates

  function PieceMoveView(polys: Polygons, newPt: Point, oldPt: Option<Point>, hidden: bool): Option<View> {
    if hidden then None
    else if newPt in polys then Some(Full)
    else if oldPt.Some? && oldPt.value in polys then Some(Left)
    else None
  }

  function PieceRemovedView(polys: Polygons, oldPt: Option<Point>, hidden: bool): Option<View> {
    if hidden then None
    else if oldPt.Some? && oldPt.value !in polys then None
    else Some(Full)
  }

  ghost function GatePieceMove(w: World, t: Table, pid: Id, ch: Id, from: Option<Cell>,
      to: Option<Cell>): Option<View> {
    match PieceOf(t.pieces, ch)
    case None => None
    case Some(id) =>
      if id in t.pieces && HiddenPiece(t.pieces[id]) then None
      else if to.None? then
        if from.Some? && Centre(w, from.value) in t.Polys(pid) then Some(Left) else None
      else PieceMoveView(t.Polys(pid), Centre(w, to.value), if from.Some? then Some(Centre(w, from.value))
          else None, false)
  }

  /** The one decision behind turn_opened and the verdict recorded for the history. */
  ghost function OpenedMoveView(w: World, t: Table, pid: Id, actor: Id, from: Option<Cell>, to: Option<Cell>,
      origin: Option<Cell>)
    : Option<View>
  {
    var view := GatePieceMove(w, t, pid, actor, origin, to);
    if view == Some(Left) && (from.None? || origin.None? || from != origin) then None else view
  }

  // ---------------------------------------------------------------- surface 1: the relay

  /** The board is written and the owner's sight refreshed before anyone is told. */
  ghost function AfterMove(w: World, t: Table, actor: Id, to: Cell): Table {
    var pieces := Moved(t.pieces, actor, to);
    var owner := t.OwnerOf(actor);
    if PieceOf(t.pieces, actor).Some? && owner.Some? && owner.value != t.master
    then t.(pieces := pieces, cache := t.cache[owner.value := w.look(owner.value, pieces)])
    else t.(pieces := pieces)
  }

  /** What a move tells player pid: Full is piece_moved, Left is piece_removed. t is the table after it. */
  function RelayedTo(w: World, t: Table, moved: Piece, was: Slot, pid: Id): Option<View> {
    PieceMoveView(t.Polys(pid), SlotCentre(w, moved.slot), Some(SlotCentre(w, was)), HiddenPiece(moved))
  }

  ghost function Relay(w: World, t: Table, actor: Id, to: Cell, pid: Id): Option<View> {
    match PieceOf(t.pieces, actor)
    case None => None
    case Some(id) =>
      var after := AfterMove(w, t, actor, to);
      if id in t.pieces && id in after.pieces then RelayedTo(w, after, after.pieces[id], t.pieces[id].slot, pid)
          else None
  }

  /** Where the piece stood when the move was applied. */
  ghost function Origin(t: Table, actor: Id): Option<Cell> {
    match PieceOf(t.pieces, actor)
    case None => None
    case Some(id) => if id in t.pieces then Some(CellOf(t.pieces[id].slot)) else None
  }

  // ---------------------------------------------------------------- surface 2: the wire

  /** How much of a move's WHERE a message carries. */
  datatype Where = Where(from: Option<Cell>, to: Option<Cell>)

  const NOWHERE := Where(None, None)

  ghost function WireMove(w: World, t: Table, pid: Id, actor: Id, from: Option<Cell>, to: Cell,
      origin: Option<Cell>): Where {
    if t.SeesAllOf(pid, actor) then Where(from, Some(to))
    else match OpenedMoveView(w, t, pid, actor, from, Some(to), origin)
      case None => NOWHERE
      case Some(Left) => Where(from, None)
      case Some(Full) => Where(from, Some(to))
  }

  // ---------------------------------------------------------------- surface 3: the history

  /** Who saw what, as it is recorded: every player of the session but the master and the owner. */
  ghost predicate Records(views: map<Id, View>, t: Table, except: Option<Id>, gate: Id -> Option<View>)
  {
    forall p: Id ::
      if p in t.players && p != t.master && Some(p) != except && gate(p).Some?
      then p in views && views[p] == gate(p).value
      else p !in views
  }

  datatype MoveSight = Whole | OriginOnly | Nothing

  function MoveSightFor(t: Table, views: map<Id, View>, pid: Id, actor: Id): MoveSight {
    if t.SeesAllOf(pid, actor) then Whole
    else if pid !in views then Nothing
    else match views[pid]
      case Full => Whole
      case Left => OriginOnly
  }

  /** toHistoryTurnResponse: the move, blanked. */
  function HistoryMove(sight: MoveSight, from: Option<Cell>, to: Cell): Where {
    match sight
    case Whole => Where(from, Some(to))
    case OriginOnly => Where(from, None)
    case Nothing => NOWHERE
  }

  // ---------------------------------------------------------------- the three agree

  lemma MovedPieceIs(pieces: Pieces, actor: Id, to: Cell, id: Id)
    requires PieceOf(pieces, actor) == Some(id)
    ensures id in pieces && pieces[id].character == actor
    ensures PieceOf(Moved(pieces, actor, to), actor) == Some(id)
    ensures Moved(pieces, actor, to)[id] == pieces[id].(slot := SlotKeepingKind(pieces[id].slot, to))
  {
    MovedOnlySlots(pieces, actor, to);
    SamePieceOf(pieces, Moved(pieces, actor, to), actor);
  }

  /** The gate, asked from the origin the move really left, is the relay's decision: same cells, same
      flag, same polygons, hex or square, piece or none. */
  lemma GateIsRelay(w: World, t: Table, actor: Id, to: Cell, pid: Id)
    ensures GatePieceMove(w, AfterMove(w, t, actor, to), pid, actor, Origin(t, actor), Some(to)) ==
      Relay(w, t, actor, to, pid)
  {
    var after := AfterMove(w, t, actor, to);
    if PieceOf(t.pieces, actor).Some? {
      var id := PieceOf(t.pieces, actor).value;
      MovedPieceIs(t.pieces, actor, to, id);
      SlotAt(t.pieces[id].slot, to);
    } else {
      assert after.pieces == t.pieces;
    }
  }

  /** For every state of visibility and every player of the session who is neither master nor owner: the
      opened move's destination was relayed iff turn_opened shows it iff the history shows it; the origin
      alone is on the wire iff it is in the history; and that happens iff the piece was seen leaving the
      very cell the action names. */
  lemma ThreeSurfacesAgree(w: World, t: Table, actor: Id, from: Option<Cell>, to: Cell, views: map<Id, View>, pid: Id)
    requires pid in t.players && !t.SeesAllOf(pid, actor)
    requires var after := AfterMove(w, t, actor, to);
      Records(views, after, after.OwnerOf(actor),
              (p: Id) => OpenedMoveView(w, AfterMove(w, t, actor, to), p, actor, from, Some(to), Origin(t, actor)))
    ensures var after := AfterMove(w, t, actor, to);
      var relay := Relay(w, t, actor, to, pid);
      var wire := WireMove(w, after, pid, actor, from, to, Origin(t, actor));
      var history := HistoryMove(MoveSightFor(after, views, pid, actor), from, to);
      && history == wire
      && (relay == Some(Full) <==> wire.to.Some?)
      && (wire.to.None? && wire.from.Some? <==> relay == Some(Left) && from.Some? && from == Origin(t, actor))
      && (relay == Some(Full) ==> wire == Where(from, Some(to)))
  {
    GateIsRelay(w, t, actor, to, pid);
  }

  /** The live wire only ever withholds: a player relayed piece_removed is told nothing when move.from is
      stale, and nobody is told of a move the relay kept from them. */
  lemma LiveWireNeverTellsMore(w: World, t: Table, actor: Id, from: Option<Cell>, to: Cell, pid: Id)
    requires !t.SeesAllOf(pid, actor)
    ensures var wire := WireMove(w, AfterMove(w, t, actor, to), pid, actor, from, to, Origin(t, actor));
      wire != NOWHERE ==> Relay(w, t, actor, to, pid).Some?
    ensures Relay(w, t, actor, to, pid) == Some(Left) && from != Origin(t, actor) ==>
      WireMove(w, AfterMove(w, t, actor, to), pid, actor, from, to, Origin(t, actor)) == NOWHERE
  {
    GateIsRelay(w, t, actor, to, pid);
  }

  /** The character's piece is on the board and shown. */
  ghost predicate PieceShown(pieces: Pieces, ch: Id) {
    match PieceOf(pieces, ch)
    case None => false
    case Some(id) => id in pieces && !HiddenPiece(pieces[id])
  }

  /** What a stale origin does to a reconnect: move.from names a cell the piece did not leave, and the reader
      sees that cell and not where the piece went. */
  ghost predicate StaleOriginInSight(w: World, t: Table, actor: Id, from: Option<Cell>, to: Cell, pid: Id) {
    var after := AfterMove(w, t, actor, to);
    && from.Some? && from != Origin(t, actor) && !t.SeesAllOf(pid, actor) && PieceShown(t.pieces, actor)
    && Centre(w, to) !in after.Polys(pid) && Centre(w, from.value) in after.Polys(pid)
  }

  lemma StaysShown(pieces: Pieces, actor: Id, to: Cell)
    ensures PieceShown(Moved(pieces, actor, to), actor) == PieceShown(pieces, actor)
  {
    MovedOnlySlots(pieces, actor, to);
    SamePieceOf(pieces, Moved(pieces, actor, to), actor);
  }

  /** A reconnect judges the move from move.from, the only origin it still has. It shows what turn_opened
      showed iff no stale origin is in the reader's sight. */
  lemma ReconnectAgreesIff(w: World, t: Table, actor: Id, from: Option<Cell>, to: Cell, pid: Id)
    ensures var after := AfterMove(w, t, actor, to);
      WireMove(w, after, pid, actor, from, to, from) == WireMove(w, after, pid, actor, from, to, Origin(t, actor))
      <==> !StaleOriginInSight(w, t, actor, from, to, pid)
  {
    var after := AfterMove(w, t, actor, to);
    StaysShown(t.pieces, actor, to);
    assert after.pieces == Moved(t.pieces, actor, to);
    SamePieceAfter(t.pieces, actor, to);
  }

  lemma SamePieceAfter(pieces: Pieces, actor: Id, to: Cell)
    ensures PieceOf(Moved(pieces, actor, to), actor) == PieceOf(pieces, actor)
  {
    MovedOnlySlots(pieces, actor, to);
    SamePieceOf(pieces, Moved(pieces, actor, to), actor);
  }

  /** And then it names that cell to a reader the relay may have told nothing at all. */
  lemma ReconnectMayTellMore()
    ensures exists w: World, t: Table, actor: Id, from: Cell, to: Cell, pid: Id ::
      && Relay(w, t, actor, to, pid) == None && !t.SeesAllOf(pid, actor)
      && WireMove(w, AfterMove(w, t, actor, to), pid, actor, Some(from), to, Some(from)) == Where(Some(from), None)
  {
    var w := World((a: int, b: int) => (a as real, b as real), (p: Id, pieces: Pieces) => iset{});
    var pieces: Pieces := map[1 := Piece(1, 10, Slot("square", Some(2), Some(2), None, None), 0.0, None)];
    var t := Table(pieces, map[7 := iset{(0.0, 0.0)}], map[], 9, [7]);
    var from, to := Cell(0, 0, 0), Cell(5, 5, 0);
    PieceOfIs(pieces, 10, 1);
    MovedPieceIs(pieces, 10, to, 1);
    var after := AfterMove(w, t, 10, to);
    assert Relay(w, t, 10, to, 7) == None;
    assert WireMove(w, after, 7, 10, Some(from), to, Some(from)) == Where(Some(from), None);
  }

  // ---------------------------------------------------------------- the close: landings

  /** The displacements a close walks, in order, with the owners' sight refreshed after each. */
  ghost function AfterMoves(w: World, t: Table, moves: seq<(Id, Cell)>): Table {
    if moves == [] then t
    else AfterMove(w, AfterMoves(w, t, moves[..|moves| - 1]), moves[|moves| - 1].0, moves[|moves| - 1].1)
  }

  /** The live gate of a settled escape's landing, and the verdict the history keeps: judged on the board
      once every piece is down. */
  ghost function LandingView(w: World, t: Table, pid: Id, ch: Id, to: Cell): Option<View> {
    GatePieceMove(w, t, pid, ch, None, Some(to))
  }

  /** The board after them; no line of sight matters to it. */
  ghost function Displaced(pieces: Pieces, moves: seq<(Id, Cell)>): Pieces {
    if moves == [] then pieces
    else Moved(Displaced(pieces, moves[..|moves| - 1]), moves[|moves| - 1].0, moves[|moves| - 1].1)
  }

  /** The board player pid's sight was last refreshed on by moves: the one left by the last displacement that
      moved a piece of theirs. None when there was none. */
  ghost function Refreshed(t: Table, pieces: Pieces, moves: seq<(Id, Cell)>, pid: Id): Option<Pieces> {
    if moves == [] then None
    else
      var n := |moves| - 1;
      var before := Displaced(pieces, moves[..n]);
      if pid != t.master && t.OwnerOf(moves[n].0) == Some(pid) && PieceOf(before, moves[n].0).Some?
      then Some(Displaced(pieces, moves)) else Refreshed(t, pieces, moves[..n], pid)
  }

  /** A player's sight through the close: what it was, or the look from the board last refreshed on. */
  lemma {:induction false} SightThrough(w: World, t: Table, moves: seq<(Id, Cell)>, pid: Id)
    ensures var after := AfterMoves(w, t, moves);
      && after == t.(pieces := Displaced(t.pieces, moves), cache := after.cache)
      && after.Polys(pid) ==
         match Refreshed(t, t.pieces, moves, pid)
         case None => t.Polys(pid)
         case Some(board) => w.look(pid, board)
  {
    if moves != [] { SightThrough(w, t, moves[..|moves| - 1], pid); }
  }

  lemma {:induction false} DisplacedOnlySlots(pieces: Pieces, moves: seq<(Id, Cell)>)
    ensures OnlySlotsDiffer(pieces, Displaced(pieces, moves))
  {
    if moves != [] {
      DisplacedOnlySlots(pieces, moves[..|moves| - 1]);
      MovedOnlySlots(Displaced(pieces, moves[..|moves| - 1]), moves[|moves| - 1].0, moves[|moves| - 1].1);
    }
  }

  lemma OneMove(t: Table, ch: Id, to: Cell, pid: Id)
    ensures Displaced(t.pieces, [(ch, to)]) == Moved(t.pieces, ch, to)
    ensures Refreshed(t, t.pieces, [(ch, to)], pid) ==
      if pid != t.master && t.OwnerOf(ch) == Some(pid) && PieceOf(t.pieces, ch).Some?
      then Some(Moved(t.pieces, ch, to)) else None
  {
    assert [(ch, to)][..0] == [];
    assert Displaced(t.pieces, []) == t.pieces && Refreshed(t, t.pieces, [], pid) == None;
  }

  lemma RelayAsks(w: World, t: Table, ch: Id, to: Cell, pid: Id)
    ensures Relay(w, t, ch, to, pid) == Some(Full) <==>
      PieceShown(t.pieces, ch) && Centre(w, to) in AfterMove(w, t, ch, to).Polys(pid)
  {
    GateIsRelay(w, t, ch, to, pid);
    SamePieceAfter(t.pieces, ch, to);
    MovedOnlySlots(t.pieces, ch, to);
  }

  lemma LandingAsks(w: World, t: Table, pid: Id, ch: Id, to: Cell)
    ensures LandingView(w, t, pid, ch, to) ==
      if PieceShown(t.pieces, ch) && Centre(w, to) in t.Polys(pid) then Some(Full) else None
  {
  }

  lemma ShownThrough(pieces: Pieces, moves: seq<(Id, Cell)>, ch: Id)
    ensures PieceShown(Displaced(pieces, moves), ch) == PieceShown(pieces, ch)
  {
    DisplacedOnlySlots(pieces, moves);
    SamePieceOf(pieces, Displaced(pieces, moves), ch);
  }

  /** Both decisions, as one question: is the cell in the player's sight, at the landing and at the end. */
  lemma LandingAndRelay(w: World, t: Table, ch: Id, to: Cell, later: seq<(Id, Cell)>, pid: Id)
    ensures var landed := AfterMove(w, t, ch, to);
      var after := AfterMoves(w, landed, later);
      && (Relay(w, t, ch, to, pid) == Some(Full) <==> PieceShown(t.pieces, ch) && Centre(w, to) in landed.Polys(pid))
      && LandingView(w, after, pid, ch, to) ==
         (if PieceShown(t.pieces, ch) && Centre(w, to) in after.Polys(pid) then Some(Full) else None)
  {
    var landed := AfterMove(w, t, ch, to);
    RelayAsks(w, t, ch, to, pid);
    SightThrough(w, landed, later, pid);
    ShownThrough(landed.pieces, later, ch);
    StaysShown(t.pieces, ch, to);
    LandingAsks(w, AfterMoves(w, landed, later), pid, ch, to);
  }

  ghost predicate AgreeIn(w: World, t: Table, ch: Id, to: Cell, later: seq<(Id, Cell)>, pid: Id) {
    var verdict := LandingView(w, AfterMoves(w, AfterMove(w, t, ch, to), later), pid, ch, to);
    verdict == Some(Full) <==> Relay(w, t, ch, to, pid) == Some(Full)
  }

  /** The verdict on a landing is the relay's, for this close and whatever the lines of sight are. */
  ghost predicate AgreeForAnySight(t: Table, ch: Id, to: Cell, later: seq<(Id, Cell)>, pid: Id) {
    forall w: World :: AgreeIn(w, t, ch, to, later, pid)
  }

  /** The player's sight is the same at the landing and at the end of the close: no later displacement moves
      a piece of theirs, or — the landing piece being theirs — it is refreshed on the very same board. */
  ghost predicate SameSight(t: Table, ch: Id, to: Cell, later: seq<(Id, Cell)>, pid: Id) {
    var board := Moved(t.pieces, ch, to);
    var atTheEnd := Refreshed(t, board, later, pid);
    atTheEnd.None? || atTheEnd == Refreshed(t, t.pieces, [(ch, to)], pid)
  }

  lemma SightsOfClose(w: World, t: Table, ch: Id, to: Cell, later: seq<(Id, Cell)>, pid: Id)
    ensures var landed := AfterMove(w, t, ch, to);
      var atLanding, atTheEnd := Refreshed(t, t.pieces, [(ch, to)], pid),
          Refreshed(t, Moved(t.pieces, ch, to), later, pid);
      && landed.Polys(pid) == (if atLanding.Some? then w.look(pid, atLanding.value) else t.Polys(pid))
      && AfterMoves(w, landed, later).Polys(pid) ==
            (if atTheEnd.Some? then w.look(pid, atTheEnd.value) else landed.Polys(pid))
  {
    var landed := AfterMove(w, t, ch, to);
    OneMove(t, ch, to, pid);
    SightThrough(w, landed, later, pid);
    SameRefreshes(t, landed, landed.pieces, later, pid);
  }

  lemma {:induction false} SameRefreshes(t: Table, u: Table, pieces: Pieces, moves: seq<(Id, Cell)>, pid: Id)
    requires u.master == t.master && u.owners == t.owners
    ensures Refreshed(u, pieces, moves, pid) == Refreshed(t, pieces, moves, pid)
  {
    if moves != [] { SameRefreshes(t, u, pieces, moves[..|moves| - 1], pid); }
  }

  /** A world with one cell, in sight from one board and not from any other, or the other way round. */
  function OddWorld(board: Pieces, elsewhere: bool): World {
    World((a: int, b: int) => (0.0, 0.0),
          (p: Id, pieces: Pieces) => if (pieces == board) == elsewhere then iset{} else iset{(0.0, 0.0)})
  }

  lemma DifferentSightsDisagree(t: Table, ch: Id, to: Cell, later: seq<(Id, Cell)>, pid: Id)
    requires PieceShown(t.pieces, ch) && !SameSight(t, ch, to, later, pid)
    ensures !AgreeForAnySight(t, ch, to, later, pid)
  {
    var atTheEnd := Refreshed(t, Moved(t.pieces, ch, to), later, pid).value;
    var atLanding := Refreshed(t, t.pieces, [(ch, to)], pid);
    var w := OddWorld(atTheEnd, atLanding.Some? || (0.0, 0.0) in t.Polys(pid));
    SightsOfClose(w, t, ch, to, later, pid);
    LandingAndRelay(w, t, ch, to, later, pid);
    assert Centre(w, to) == (0.0, 0.0);
    assert !AgreeIn(w, t, ch, to, later, pid);
  }

  /** The landing's gate is the relay's decision, for every line of sight, iff the piece is off the board or
      hidden — then nobody is told either — or the player's sight is the same at both moments. */
  lemma LandingIsRelayIff(t: Table, ch: Id, to: Cell, later: seq<(Id, Cell)>, pid: Id)
    ensures AgreeForAnySight(t, ch, to, later, pid) <==> !PieceShown(t.pieces, ch) || SameSight(t, ch, to, later, pid)
  {
    forall w: World | !PieceShown(t.pieces, ch) || SameSight(t, ch, to, later, pid)
      ensures AgreeIn(w, t, ch, to, later, pid)
    {
      SightsOfClose(w, t, ch, to, later, pid);
      LandingAndRelay(w, t, ch, to, later, pid);
    }
    if PieceShown(t.pieces, ch) && !SameSight(t, ch, to, later, pid) { DifferentSightsDisagree(t, ch, to, later, pid); }
  }

  /** For a piece that is not the player's own — the only case the gate is asked in — that is: no later
      displacement of the close moves a piece of theirs. */
  lemma {:induction false} SameSightIff(t: Table, board: Pieces, later: seq<(Id, Cell)>, pid: Id)
    ensures Refreshed(t, board, later, pid).None? <==>
      (pid == t.master || forall i ::
        0 <= i < |later| && t.OwnerOf(later[i].0) == Some(pid) ==> PieceOf(board, later[i].0) == None)
  {
    if later != [] {
      var n := |later| - 1;
      SameSightIff(t, board, later[..n], pid);
      DisplacedOnlySlots(board, later[..n]);
      SamePieceOf(board, Displaced(board, later[..n]), later[n].0);
      assert forall i :: 0 <= i < n ==> later[..n][i] == later[i];
    }
  }

  lemma LandingIsRelayForOthers(t: Table, ch: Id, to: Cell, later: seq<(Id, Cell)>, pid: Id)
    requires !t.SeesAllOf(pid, ch) && PieceShown(t.pieces, ch)
    ensures AgreeForAnySight(t, ch, to, later, pid) <==>
      forall i :: 0 <= i < |later| && t.OwnerOf(later[i].0) == Some(pid) ==> PieceOf(t.pieces, later[i].0) == None
  {
    var board := Moved(t.pieces, ch, to);
    LandingIsRelayIff(t, ch, to, later, pid);
    OneMove(t, ch, to, pid);
    SameSightIff(t, board, later, pid);
    MovedOnlySlots(t.pieces, ch, to);
    forall i | 0 <= i < |later| ensures PieceOf(board, later[i].0) == PieceOf(t.pieces, later[i].0) {
      SamePieceOf(t.pieces, board, later[i].0);
    }
  }

  /** One such close: the player sees the piece land, then their own escapes
      to where that cell is out of sight. The message of the landing then withholds a cell piece_moved has
      already named. */
  lemma LandingMayDifferFromRelay()
    ensures exists w: World, t: Table, ch: Id, to: Cell, later: seq<(Id, Cell)>, pid: Id ::
      Relay(w, t, ch, to, pid) == Some(Full)
        && LandingView(w, AfterMoves(w, AfterMove(w, t, ch, to), later), pid, ch, to) == None
  {
    var w := World((a: int, b: int) => (a as real, b as real), (p: Id, pieces: Pieces) => iset{});
    var slot := Slot("square", Some(0), Some(0), None, None);
    var pieces: Pieces := map[1 := Piece(1, 10, slot, 0.0, None), 2 := Piece(2, 20, slot, 0.0, None)];
    var t := Table(pieces, map[7 := iset{(5.0, 5.0)}], map[20 := 7], 9, [7]);
    var to := Cell(5, 5, 0);
    var later := [(20, Cell(8, 8, 0))];
    PieceOfIs(pieces, 10, 1);
    MovedPieceIs(pieces, 10, to, 1);
    var landed := AfterMove(w, t, 10, to);
    assert landed.pieces == pieces[1 := pieces[1].(slot := SlotKeepingKind(slot, to))];
    assert Relay(w, t, 10, to, 7) == Some(Full);
    PieceOfIs(landed.pieces, 20, 2);
    assert later[..0] == [] && AfterMoves(w, landed, later[..0]) == landed;
    var after := AfterMoves(w, landed, later);
    assert after == AfterMove(w, landed, 20, Cell(8, 8, 0));
    assert after.Polys(7) == iset{};
    assert LandingView(w, after, 7, 10, to) == None;
  }

  // ---------------------------------------------------------------- the close: live and history

  /** The live gate: the landing is left in the message, or taken out. */
  ghost function LiveLanding(w: World, t: Table, pid: Id, ch: Id, landing: Option<Cell>): Option<Cell> {
    if landing.None? || t.SeesAllOf(pid, ch) || LandingView(w, t, pid, ch, landing.value).Some? then landing else None
  }

  /** The history: the landing is shown to who sees all of the character, or has a verdict. */
  function HistoryLanding(t: Table, views: map<Id, View>, pid: Id, ch: Id, landing: Option<Cell>): Option<Cell> {
    if landing.Some? && (t.SeesAllOf(pid, ch) || pid in views) then landing else None
  }

  lemma LandingsAgree(w: World, t: Table, pid: Id, ch: Id, landing: Option<Cell>, views: map<Id, View>)
    requires pid in t.players || t.SeesAllOf(pid, ch)
    requires landing.Some? ==> Records(views, t, t.OwnerOf(ch), (p: Id) => LandingView(w, t, p, ch, landing.value))
    ensures HistoryLanding(t, views, pid, ch, landing) == LiveLanding(w, t, pid, ch, landing)
  {
  }

  /** A reaction's destination in the history: seen when it was opened, or by the piece arriving. */
  function HistoryReactionMove(
    t: Table, atOpening: map<Id, View>, atClose: map<Id, View>, escaped: bool, pid: Id, react: Reaction): Option<Cell>
  {
    if react.move.None? then None
    else if t.SeesAllOf(pid, react.actor) || (pid in atOpening && atOpening[pid] == Full)
        || (escaped && pid in atClose) then react.move
    else None
  }

  /** The close of a turn in which the reaction escaped, from its own displacement on. */
  ghost function AfterClose(w: World, closing: Table, react: Reaction, later: seq<(Id, Cell)>): Table
    requires react.move.Some?
  {
    AfterMoves(w, AfterMove(w, closing, react.actor, react.move.value), later)
  }

  /** A reaction's destination is in the history of a player exactly when reaction_opened showed it to them
      or, once the close has put every piece down, they see it there. For one who sees the same at the
      landing and at the end that is the relay of the escape. For one who does not, the end decides: the
      history may keep what piece_moved named, or name what it kept. opening is the table as the master
      opened the reaction, closing the table as the close found it. */
  lemma ReactionMoveAsSeenLive(
    w: World, opening: Table, closing: Table, react: Reaction, escaped: bool, later: seq<(Id, Cell)>,
    openedViews: map<Id, View>, landedViews: map<Id, View>, pid: Id)
    requires react.move.Some? && pid in opening.players && !opening.SeesAllOf(pid, react.actor)
    requires closing == opening.(pieces := closing.pieces, cache := closing.cache)
    requires Records(openedViews, opening, opening.OwnerOf(react.actor),
      (p: Id) => OpenedMoveView(w, opening, p, react.actor, None, react.move, Origin(opening, react.actor)))
    requires escaped ==> Records(landedViews, AfterClose(w, closing, react, later), opening.OwnerOf(react.actor),
      (p: Id) => LandingView(w, AfterClose(w, closing, react, later), p, react.actor, react.move.value))
    ensures var to := react.move.value;
      var shown := HistoryReactionMove(opening, openedViews, landedViews, escaped, pid, react) == react.move;
      var atOpening := WireMove(w, opening, pid, react.actor, None, to, Origin(opening, react.actor)).to.Some?;
      var after := AfterClose(w, closing, react, later);
      && (shown <==>
            (atOpening || (escaped && PieceShown(closing.pieces, react.actor) && Centre(w, to) in after.Polys(pid))))
      && (SameSight(closing, react.actor, to, later, pid) ==>
            (shown <==> (atOpening || (escaped && Relay(w, closing, react.actor, to, pid) == Some(Full)))))
  {
    var to := react.move.value;
    SightThrough(w, AfterMove(w, closing, react.actor, to), later, pid);
    LandingAndRelay(w, closing, react.actor, to, later, pid);
    SightsOfClose(w, closing, react.actor, to, later, pid);
  }

  // ---------------------------------------------------------------- hidden and shown, on the piece's own flag

  /** The sight player pid is told a move by: their own, refreshed first when the piece is theirs. */
  ghost function SightOfMove(w: World, t: Table, ch: Id, board: Pieces, pid: Id): Polygons {
    if ch in t.owners && t.owners[ch] == pid && pid != t.master then w.look(pid, board)
    else if pid in t.cache then t.cache[pid] else iset{}
  }

  /** A piece the master hid, visible:false, is nobody's news: no relay of its move or its removal, no landing,
      and for every reader who does not see all of it nothing on the wire, live or reconnecting, and nothing
      in the history. */
  lemma HiddenIsNobodysNews(
    w: World, t: Table, ch: Id, id: Id, from: Option<Cell>, to: Cell, views: map<Id, View>, pid: Id)
    requires IsPieceOf(t.pieces, ch, id) && t.pieces[id].visible == Some(false)
    requires Records(views, AfterMove(w, t, ch, to), t.OwnerOf(ch),
      (p: Id) => OpenedMoveView(w, AfterMove(w, t, ch, to), p, ch, from, Some(to), Origin(t, ch)))
    ensures Relay(w, t, ch, to, pid) == None && Removal(w, t, ch, pid) == None && LandingView(w, t, pid, ch, to) == None
    ensures forall origin, dest :: GatePieceMove(w, t, pid, ch, origin, dest) == None
    ensures pid != t.master && !(ch in t.owners && t.owners[ch] == pid) ==>
      var after := AfterMove(w, t, ch, to);
      && WireMove(w, after, pid, ch, from, to, Origin(t, ch)) == NOWHERE
      && WireMove(w, after, pid, ch, from, to, from) == NOWHERE
      && HistoryMove(MoveSightFor(after, views, pid, ch), from, to) == NOWHERE
      && LiveLanding(w, t, pid, ch, Some(to)) == None
  {
    PieceOfIs(t.pieces, ch, id);
    MovedPieceIs(t.pieces, ch, to, id);
    GateIsRelay(w, t, ch, to, pid);
  }

  /** A piece that is not hidden, flagged visible or not flagged at all: a move is news in full to who sees its
      destination, of the leaving to who sees only the cell it left, and of nothing to anyone else; a removal
      to who sees its cell, and a landing to who sees where it came down; and a move with no destination is at
      most a leaving. */
  lemma ShownIsNewsToWhoSees(w: World, t: Table, ch: Id, id: Id, to: Cell, pid: Id)
    requires IsPieceOf(t.pieces, ch, id) && (t.pieces[id].visible.None? || t.pieces[id].visible == Some(true))
    ensures var was := t.pieces[id];
      var board := Moved(t.pieces, ch, to);
      var seen := SightOfMove(w, t, ch, board, pid);
      var left := w.center(AB(was.slot).0, AB(was.slot).1);
      && (Relay(w, t, ch, to, pid) == Some(Full) <==> w.center(to.a, to.b) in seen)
      && (Relay(w, t, ch, to, pid) == Some(Left) <==> w.center(to.a, to.b) !in seen && left in seen)
      && (Removal(w, t, ch, pid).Some? <==> pid in t.cache && left in t.cache[pid])
      && (LandingView(w, t, pid, ch, to).Some? <==> pid in t.cache && w.center(to.a, to.b) in t.cache[pid])
    ensures forall from: Option<Cell> ::
      && GatePieceMove(w, t, pid, ch, from, None) != Some(Full)
      && (GatePieceMove(w, t, pid, ch, from, None) == Some(Left) <==>
            from.Some? && pid in t.cache && w.center(from.value.a, from.value.b) in t.cache[pid])
  {
    PieceOfIs(t.pieces, ch, id);
    MovedPieceIs(t.pieces, ch, to, id);
    SlotAt(t.pieces[id].slot, to);
  }

  /** The master and the character's owner are never gated: hidden or not, in sight or not, they get the whole
      move on the wire, live and reconnecting, and in the history, and every landing. */
  lemma WhoSeesAllOfItIsToldAll(
    w: World, t: Table, ch: Id, from: Option<Cell>, to: Cell, origin: Option<Cell>, views: map<Id, View>, pid: Id)
    requires pid == t.master || (ch in t.owners && t.owners[ch] == pid)
    ensures WireMove(w, t, pid, ch, from, to, origin) == Where(from, Some(to))
    ensures HistoryMove(MoveSightFor(t, views, pid, ch), from, to) == Where(from, Some(to))
    ensures LiveLanding(w, t, pid, ch, Some(to)) == Some(to) == HistoryLanding(t, views, pid, ch, Some(to))
  {
  }

  /** And a character with no piece on the board makes no news at all. */
  lemma NoPieceNoNews(w: World, t: Table, ch: Id, to: Cell, pid: Id)
    requires forall i :: i in t.pieces ==> t.pieces[i].character != ch
    ensures Relay(w, t, ch, to, pid) == None && Removal(w, t, ch, pid) == None && LandingView(w, t, pid, ch, to) == None
    ensures AfterMove(w, t, ch, to) == t
  {
    PieceOfNone(t.pieces, ch);
  }

  // ---------------------------------------------------------------- recording, as it is written

  /** One loop behind every record: the players of the session, one by one. */
  method RecordOpenedMoveViews(
    t: Table, actor: Id, gate: Id -> Option<View>) returns (views: map<Id, View>)
    ensures Records(views, t, t.OwnerOf(actor), gate)
    ensures forall p :: p in views <==>
      p in t.players && p != t.master && !(actor in t.owners && t.owners[actor] == p) && gate(p).Some?
    ensures forall p :: p in views ==> gate(p) == Some(views[p])
  {
    views := map[];
    for i := 0 to |t.players|
      invariant forall p: Id ::
        if p in t.players[..i] && p != t.master && Some(p) != t.OwnerOf(actor) && gate(p).Some?
        then p in views && views[p] == gate(p).value
        else p !in views
    {
      var pid := t.players[i];
      assert t.players[..i + 1] == t.players[..i] + [pid];
      if pid != t.master && Some(pid) != t.OwnerOf(actor) {
        var v := gate(pid);
        if v.Some? { views := views[pid := v.value]; }
      }
    }
    assert t.players[..|t.players|] == t.players;
  }

  // ---------------------------------------------------------------- the master's hand

  datatype Kind = MovePiece | PlacePiece | RemovePiece | WallInteract | RevealWall

  /** A record's content: a piece's, another kind's, or bytes nobody can read. */
  datatype Content = PieceContent(character: Id, piece: Id, from: Option<Cell>, to: Option<Cell>) | Walls(ids: seq<Id>)
    | Unreadable

  datatype MasterRecord = MasterRecord(kind: Kind, content: Content, views: map<Id, View>)

  predicate IsPieceKind(k: Kind) { k.MovePiece? || k.PlacePiece? || k.RemovePiece? }

  function ClearContentTo(c: Content): Option<Content> {
    if c.PieceContent? then Some(c.(to := None)) else None
  }

  function ProjectFor(r: MasterRecord, viewerIsMaster: bool, viewer: Id): Option<MasterRecord> {
    if viewerIsMaster then Some(r)
    else if viewer !in r.views then None
    else
      var proj := r.(views := map[]);
      if r.views[viewer] == Left && IsPieceKind(r.kind) then
        var cleared := ClearContentTo(r.content);
        if cleared.Some? then Some(proj.(content := cleared.value)) else None
      else Some(proj)
  }

  /** What the master's drag of a character's piece records. */
  ghost predicate RecordsDrag(w: World, t: Table, ch: Id, to: Cell, r: MasterRecord) {
    && r.kind == MovePiece
    && (exists id :: r.content == PieceContent(ch, id, Origin(t, ch), Some(to)))
    && Records(r.views, t, None, (p: Id) => Relay(w, t, ch, to, p))
  }

  /** A dragged piece in the history: whole to who was relayed piece_moved, without its destination to who
      was relayed piece_removed, absent for anyone else; and nobody but the master reads who saw what. */
  lemma DragAsSeenLive(w: World, t: Table, ch: Id, to: Cell, r: MasterRecord, pid: Id)
    requires RecordsDrag(w, t, ch, to, r) && pid in t.players && pid != t.master
    ensures var shown := ProjectFor(r, false, pid);
      match Relay(w, t, ch, to, pid)
      case None => shown == None
      case Some(Full) => shown == Some(r.(views := map[]))
      case Some(Left) => shown == Some(r.(views := map[], content := r.content.(to := None)))
  {
    if Relay(w, t, ch, to, pid) == Some(Left) { LeftNeverShowsTo(r, pid); }
  }

  /** The master takes a character's piece off: it is gone from the board, and nobody's sight is refreshed,
      before anyone is told. */
  ghost function Removal(w: World, t: Table, ch: Id, pid: Id): Option<View> {
    match PieceOf(t.pieces, ch)
    case None => None
    case Some(id) =>
      if id in t.pieces
      then PieceRemovedView(t.Polys(pid), Some(SlotCentre(w, t.pieces[id].slot)), HiddenPiece(t.pieces[id]))
      else None
  }

  ghost predicate RecordsRemoval(w: World, t: Table, ch: Id, r: MasterRecord) {
    && r.kind == RemovePiece
    && (exists id :: r.content == PieceContent(ch, id, Origin(t, ch), None))
    && Records(r.views, t, None, (p: Id) => Removal(w, t, ch, p))
  }

  /** A removed piece in the history: whole to exactly who was sent piece_removed — who saw the cell it stood
      on, and a hidden piece nobody — and absent for anyone else. */
  lemma RemovalAsSeenLive(w: World, t: Table, ch: Id, r: MasterRecord, pid: Id)
    requires RecordsRemoval(w, t, ch, r) && pid in t.players && pid != t.master
    ensures var shown := ProjectFor(r, false, pid);
      && (shown.Some? <==> Removal(w, t, ch, pid).Some?)
      && (shown.Some? ==> shown.value == r.(views := map[]))
      && (shown.Some? <==>
            PieceShown(t.pieces, ch) && Origin(t, ch).Some? && Centre(w, Origin(t, ch).value) in t.Polys(pid))
  {
  }

  /** For every record and reader: who only saw a piece leave is never handed a destination. */
  lemma LeftNeverShowsTo(r: MasterRecord, viewer: Id)
    requires viewer in r.views && r.views[viewer] == Left && IsPieceKind(r.kind)
    ensures var shown := ProjectFor(r, false, viewer);
      && (shown.Some? <==> r.content.PieceContent?)
      && (shown.Some? ==>
            && shown.value.content.PieceContent? && shown.value.content.to.None?
            && shown.value.content.from == r.content.from && shown.value.views == map[])
  {
  }
}
