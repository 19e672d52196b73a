/** The pieces on the board: whose piece an action moves, where a closed turn's escapes leave the pieces,
    and the master's hand. */
module Tabletop {
  import opened Prelude

  datatype Slot = Slot(kind: string, col: Option<int>, row: Option<int>, q: Option<int>, r: Option<int>)

  /** A grid position; c is an index nobody has reconciled with a piece's height. */
  datatype Cell = Cell(a: int, b: int, c: int)

  datatype Piece = Piece(id: Id, character: Id, slot: Slot, z: real, visible: Option<bool>)

  type Pieces = map<Id, Piece>

  function OrZero(x: Option<int>): int { if x.Some? then x.value else 0 }

  function AB(s: Slot): (int, int) {
    if s.kind == "hex" then (OrZero(s.q), OrZero(s.r)) else (OrZero(s.col), OrZero(s.row))
  }

  function SlotKeepingKind(was: Slot, pos: Cell): Slot {
    if was.kind == "hex" then Slot("hex", None, None, Some(pos.a), Some(pos.b))
    else Slot(was.kind, Some(pos.a), Some(pos.b), None, None)
  }

  function SlotFor(hexGrid: bool, pos: Cell): Slot {
    if hexGrid then Slot("hex", None, None, Some(pos.a), Some(pos.b))
        else Slot("square", Some(pos.a), Some(pos.b), None, None)
  }

  function CellOf(s: Slot): Cell { Cell(AB(s).0, AB(s).1, 0) }

  // ---------------------------------------------------------------- the piece a character moves by

  /** Of ch's pieces, the one with the lowest id. */
  predicate IsPieceOf(pieces: Pieces, ch: Id, id: Id) {
    && id in pieces && pieces[id].character == ch
    && forall i :: i in pieces && pieces[i].character == ch ==> id <= i
  }

  ghost function PieceOf(pieces: Pieces, ch: Id): Option<Id> {
    if id :| IsPieceOf(pieces, ch, id) then Some(id) else None
  }

  lemma LowestExists(pieces: Pieces, ch: Id, id: Id)
    requires id in pieces && pieces[id].character == ch
    ensures exists i :: IsPieceOf(pieces, ch, i)
    decreases id
  {
    if j :| j in pieces && pieces[j].character == ch && j < id {
      LowestExists(pieces, ch, j);
    } else {
      assert IsPieceOf(pieces, ch, id);
    }
  }

  lemma PieceOfIs(pieces: Pieces, ch: Id, id: Id)
    requires IsPieceOf(pieces, ch, id)
    ensures PieceOf(pieces, ch) == Some(id)
  {
  }

  lemma PieceOfNone(pieces: Pieces, ch: Id)
    requires forall i :: i in pieces ==> pieces[i].character != ch
    ensures PieceOf(pieces, ch) == None
  {
  }

  /** The board after one move: the piece's cell and nothing else. */
  ghost function Moved(pieces: Pieces, actor: Id, pos: Cell): Pieces {
    match PieceOf(pieces, actor)
    case None => pieces
    case Some(id) => pieces[id := pieces[id].(slot := SlotKeepingKind(pieces[id].slot, pos))]
  }

  // ---------------------------------------------------------------- escapes

  datatype Reaction = Reaction(id: Id, actor: Id, move: Option<Cell>)

  datatype Escape = Escape(escaped: bool, landing: Option<Cell>)

  /** One target's outcome. reaction is None for a target that answered with the passive defaults. */
  datatype Outcome = Outcome(target: Id, reaction: Option<Id>, escape: Option<Escape>)

  /** Where the close puts an escape's piece; None when it stays put. */
  function ClosedEscapeMove(react: Reaction, o: Outcome): Option<Cell> {
    if o.escape.Some? && o.escape.value.escaped then react.move
    else if o.escape.Some? && o.escape.value.landing.Some? then o.escape.value.landing
    else None
  }

  function ById(reactions: seq<Reaction>, id: Id): Option<Reaction> {
    if reactions == [] then None
    else if reactions[|reactions| - 1].id == id then Some(reactions[|reactions| - 1])
    else ById(reactions[..|reactions| - 1], id)
  }

  function Displacement(reactions: seq<Reaction>, o: Outcome): Option<(Id, Cell)> {
    if o.reaction.None? then None
    else
      var react := ById(reactions, o.reaction.value);
      if react.None? then None
      else
        var to := ClosedEscapeMove(react.value, o);
        if to.Some? then Some((react.value.actor, to.value)) else None
  }

  ghost function Escaped(pieces: Pieces, reactions: seq<Reaction>, outcomes: seq<Outcome>): Pieces {
    if outcomes == [] then pieces
    else
      var before := Escaped(pieces, reactions, outcomes[..|outcomes| - 1]);
      match Displacement(reactions, outcomes[|outcomes| - 1])
      case None => before
      case Some((actor, to)) => Moved(before, actor, to)
  }

  // ---------------------------------------------------------------- the board object

  class Board {
    var pieces: Pieces

    constructor (pieces: Pieces)
      ensures this.pieces == pieces
    {
      this.pieces := pieces;
    }

    /** Whatever order the pieces are walked in, the lowest id wins. */
    method PieceOfLocked(ch: Id) returns (found: Option<Id>)
      ensures found == PieceOf(pieces, ch)
    {
      found := None;
      var todo := pieces.Keys;
      while todo != {}
        invariant todo <= pieces.Keys
        invariant found.Some? ==> found.value in pieces.Keys - todo && pieces[found.value].character == ch
        invariant forall i :: i in pieces.Keys - todo && pieces[i].character == ch ==> found.Some? && found.value <= i
        decreases |todo|
      {
        var id :| id in todo;
        if pieces[id].character == ch && (found.None? || id < found.value) { found := Some(id); }
        todo := todo - {id};
      }
      if found.Some? { PieceOfIs(pieces, ch, found.value); } else { PieceOfNone(pieces, ch); }
    }

    method ApplyMove(actor: Id, move: Option<Cell>) returns (origin: Option<Cell>)
      modifies this
      ensures pieces == if move.Some? then Moved(old(pieces), actor, move.value) else old(pieces)
      ensures origin ==
        if move.Some? && PieceOf(old(pieces), actor).Some?
            then Some(CellOf(old(pieces)[PieceOf(old(pieces), actor).value].slot)) else None
    {
      if move.None? { return None; }
      var id := PieceOfLocked(actor);
      if id.None? { return None; }
      assert IsPieceOf(pieces, actor, id.value);
      var was := pieces[id.value];
      pieces := pieces[id.value := was.(slot := SlotKeepingKind(was.slot, move.value))];
      return Some(CellOf(was.slot));
    }

    method ApplyClosedEscapes(reactions: seq<Reaction>, outcomes: seq<Outcome>)
      modifies this
      ensures pieces == Escaped(old(pieces), reactions, outcomes)
    {
      var byId: map<Id, Reaction> := map[];
      for i := 0 to |reactions|
        invariant forall id :: id in byId <==> ById(reactions[..i], id).Some?
        invariant forall id :: id in byId ==> byId[id] == ById(reactions[..i], id).value
      {
        assert reactions[..i + 1][..i] == reactions[..i];
        byId := byId[reactions[i].id := reactions[i]];
      }
      assert reactions[..|reactions|] == reactions;
      for i := 0 to |outcomes|
        invariant pieces == Escaped(old(pieces), reactions, outcomes[..i])
      {
        assert outcomes[..i + 1][..i] == outcomes[..i];
        var o := outcomes[i];
        if o.reaction.Some? && o.reaction.value in byId {
          var react := byId[o.reaction.value];
          var mv := ClosedEscapeMove(react, o);
          var origin := ApplyMove(react.actor, mv);
        }
      }
      assert outcomes[..|outcomes|] == outcomes;
    }

    /** The piece applyMove would move is taken off; ok is false when there is none. */
    method MasterRemovePiece(ch: Id) returns (ok: bool, from: Option<Cell>)
      modifies this
      ensures ok == PieceOf(old(pieces), ch).Some?
      ensures ok ==>
        var id := PieceOf(old(pieces), ch).value;
        id in old(pieces) && pieces == old(pieces) - {id} && from == Some(CellOf(old(pieces)[id].slot))
      ensures !ok ==> pieces == old(pieces) && from == None
    {
      var id := PieceOfLocked(ch);
      if id.None? { return false, None; }
      assert IsPieceOf(pieces, ch, id.value);
      from := Some(CellOf(pieces[id.value].slot));
      pieces := pieces - {id.value};
      return true, from;
    }

    /** A drag, or a new piece under a fresh id for a character that has none; admitted says whether that
        character is, or became, a participant. Admitting is done without the lock: meanwhile is the board
        as it then stands, and a character placed meanwhile is not placed twice. */
    method MasterMoveOrPlacePiece(ch: Id, pos: Cell, hexGrid: bool, freshId: Id, admitted: bool, meanwhile: Pieces)
      returns (ok: bool, from: Option<Cell>)
      requires freshId !in meanwhile
      modifies this
      ensures PieceOf(old(pieces), ch).Some? ==>
        var id := PieceOf(old(pieces), ch).value;
        ok && id in old(pieces) && pieces == Moved(old(pieces), ch, pos) && from == Some(CellOf(old(pieces)[id].slot))
      ensures PieceOf(old(pieces), ch).None? ==>
        && from == None
        && ok == (admitted && PieceOf(meanwhile, ch).None?)
        && pieces ==
           if !admitted then old(pieces)
           else if ok then meanwhile[freshId := Piece(freshId, ch, SlotFor(hexGrid, pos), 0.0, Some(true))]
           else meanwhile
    {
      var id := PieceOfLocked(ch);
      if id.Some? {
        assert IsPieceOf(pieces, ch, id.value);
        var was := pieces[id.value];
        from := Some(CellOf(was.slot));
        pieces := pieces[id.value := was.(slot := SlotKeepingKind(was.slot, pos))];
        return true, from;
      }
      if !admitted { return false, None; }
      pieces := meanwhile;
      var placed := PieceOfLocked(ch);
      if placed.Some? { return false, None; }
      pieces := pieces[freshId := Piece(freshId, ch, SlotFor(hexGrid, pos), 0.0, Some(true))];
      return true, None;
    }
  }

  // ---------------------------------------------------------------- what a move leaves

  /** A slot of shape kind at cell c: its own two coordinates and no others. */
  predicate SlotIs(s: Slot, kind: string, c: Cell) {
    s == if kind == "hex" then Slot("hex", None, None, Some(c.a), Some(c.b))
      else Slot(kind, Some(c.a), Some(c.b), None, None)
  }

  /** was, moved to c: the slot's cell is c in the shape it had, and nothing else of the piece moves. */
  predicate StandsAt(was: Piece, now: Piece, c: Cell) {
    now == was.(slot := now.slot) && SlotIs(now.slot, was.slot.kind, c)
  }

  /** A new piece gets the grid's shape and the cell asked for; and every slot, of either shape, reads back as
      its own coordinates. */
  lemma PlacedAt(hexGrid: bool, pos: Cell)
    ensures SlotIs(SlotFor(hexGrid, pos), if hexGrid then "hex" else "square", pos)
    ensures AB(SlotFor(hexGrid, pos)) == (pos.a, pos.b) && CellOf(SlotFor(hexGrid, pos)) == Cell(pos.a, pos.b, 0)
  {
  }

  /** A slot with its own shape's coordinates reads back as them, whatever the other two are; a missing one
      reads as 0. */
  lemma ReadsBack(s: Slot)
    ensures s.kind == "hex" ==>
      && (s.q.Some? ==> AB(s).0 == s.q.value) && (s.r.Some? ==> AB(s).1 == s.r.value)
      && (s.q.None? ==> AB(s).0 == 0) && (s.r.None? ==> AB(s).1 == 0)
    ensures s.kind != "hex" ==>
      && (s.col.Some? ==> AB(s).0 == s.col.value) && (s.row.Some? ==> AB(s).1 == s.row.value)
      && (s.col.None? ==> AB(s).0 == 0) && (s.row.None? ==> AB(s).1 == 0)
  {
  }

  /** The cell the wire and the board agree on: the slot's shape survives, its cell is the move's. */
  lemma SlotAt(was: Slot, pos: Cell)
    ensures SlotIs(SlotKeepingKind(was, pos), was.kind, pos)
    ensures AB(SlotKeepingKind(was, pos)) == (pos.a, pos.b) && SlotKeepingKind(was, pos).kind == was.kind
    ensures forall again: Cell :: SlotKeepingKind(SlotKeepingKind(was, pos), again) == SlotKeepingKind(was, again)
  {
  }

  /** Nobody changes hands, height, visibility or shape, and everyone still moves by the same piece. */
  ghost predicate OnlySlotsDiffer(a: Pieces, b: Pieces) {
    && b.Keys == a.Keys
    && forall id :: id in a ==> b[id] == a[id].(slot := b[id].slot) && b[id].slot.kind == a[id].slot.kind
  }

  lemma SamePieceOf(a: Pieces, b: Pieces, ch: Id)
    requires OnlySlotsDiffer(a, b)
    ensures PieceOf(b, ch) == PieceOf(a, ch)
  {
    if id :| id in a && a[id].character == ch {
      LowestExists(a, ch, id);
      var low :| IsPieceOf(a, ch, low);
      assert IsPieceOf(b, ch, low);
      PieceOfIs(a, ch, low);
      PieceOfIs(b, ch, low);
    } else {
      PieceOfNone(a, ch);
      PieceOfNone(b, ch);
    }
  }

  lemma MovedOnlySlots(pieces: Pieces, actor: Id, pos: Cell)
    ensures OnlySlotsDiffer(pieces, Moved(pieces, actor, pos))
    ensures forall id :: id in pieces && PieceOf(pieces, actor) != Some(id) ==>
      Moved(pieces, actor, pos)[id] == pieces[id]
  {
  }

  /** A move, exactly: the character's piece — of its pieces the one with the lowest id — stands at the cell, in
      its own shape, and every other piece is as it was; and a character with none moves nothing. */
  lemma MoveIs(pieces: Pieces, ch: Id, pos: Cell, id: Id)
    requires id in pieces && pieces[id].character == ch
    requires forall other :: other in pieces && pieces[other].character == ch ==> id <= other
    ensures var after := Moved(pieces, ch, pos);
      && after.Keys == pieces.Keys && StandsAt(pieces[id], after[id], pos)
      && forall other :: other in pieces && other != id ==> after[other] == pieces[other]
    ensures forall nobody :: (forall i :: i in pieces ==> pieces[i].character != nobody) ==>
      Moved(pieces, nobody, pos) == pieces
  {
    PieceOfIs(pieces, ch, id);
  }

  lemma {:induction false} EscapedOnlySlots(pieces: Pieces, reactions: seq<Reaction>, outcomes: seq<Outcome>)
    ensures OnlySlotsDiffer(pieces, Escaped(pieces, reactions, outcomes))
  {
    if outcomes != [] {
      var init, last := outcomes[..|outcomes| - 1], outcomes[|outcomes| - 1];
      EscapedOnlySlots(pieces, reactions, init);
      var d := Displacement(reactions, last);
      if d.Some? { MovedOnlySlots(Escaped(pieces, reactions, init), d.value.0, d.value.1); }
    }
  }

  /** No later outcome of the close displaces the character outcome k does. */
  ghost predicate LastDisplacement(reactions: seq<Reaction>, outcomes: seq<Outcome>, k: nat)
    requires k < |outcomes|
  {
    var d := Displacement(reactions, outcomes[k]);
    forall j :: k < j < |outcomes| && d.Some? && Displacement(reactions, outcomes[j]).Some? ==>
      Displacement(reactions, outcomes[j]).value.0 != d.value.0
  }

  /** A piece no displacement names is the very piece it was. */
  lemma {:induction false} UndisplacedPiece(pieces: Pieces, reactions: seq<Reaction>, outcomes: seq<Outcome>, id: Id)
    requires id in pieces
    requires forall i :: 0 <= i < |outcomes| && Displacement(reactions, outcomes[i]).Some? ==>
      PieceOf(pieces, Displacement(reactions, outcomes[i]).value.0) != Some(id)
    ensures id in Escaped(pieces, reactions, outcomes) && Escaped(pieces, reactions, outcomes)[id] == pieces[id]
  {
    if outcomes != [] {
      var n := |outcomes| - 1;
      UndisplacedPiece(pieces, reactions, outcomes[..n], id);
      EscapedOnlySlots(pieces, reactions, outcomes[..n]);
      var d := Displacement(reactions, outcomes[n]);
      if d.Some? {
        SamePieceOf(pieces, Escaped(pieces, reactions, outcomes[..n]), d.value.0);
        MovedOnlySlots(Escaped(pieces, reactions, outcomes[..n]), d.value.0, d.value.1);
      }
    }
  }

  /** And one that is named stands where the last one that names it says. */
  lemma {:induction false} DisplacedPiece(pieces: Pieces, reactions: seq<Reaction>, outcomes: seq<Outcome>, k: nat,
      id: Id)
    requires k < |outcomes| && LastDisplacement(reactions, outcomes, k)
    requires Displacement(reactions, outcomes[k]).Some?
      && PieceOf(pieces, Displacement(reactions, outcomes[k]).value.0) == Some(id)
    requires id in pieces
    ensures var to := Displacement(reactions, outcomes[k]).value.1;
      id in Escaped(pieces, reactions, outcomes) &&
      Escaped(pieces, reactions, outcomes)[id] == pieces[id].(slot := SlotKeepingKind(pieces[id].slot, to))
  {
    var n := |outcomes| - 1;
    var init := outcomes[..n];
    var before := Escaped(pieces, reactions, init);
    var d := Displacement(reactions, outcomes[n]);
    EscapedOnlySlots(pieces, reactions, init);
    if k == n {
      SamePieceOf(pieces, before, d.value.0);
    } else {
      assert init[k] == outcomes[k];
      assert LastDisplacement(reactions, init, k) by {
        assert forall i :: 0 <= i < |init| ==> init[i] == outcomes[i];
      }
      DisplacedPiece(pieces, reactions, init, k, id);
      if d.Some? {
        OwnersApart(pieces, d.value.0, Displacement(reactions, outcomes[k]).value.0, id);
        SamePieceOf(pieces, before, d.value.0);
        MovedOnlySlots(before, d.value.0, d.value.1);
      }
    }
  }

  /** Two characters never move by the same piece. */
  lemma OwnersApart(pieces: Pieces, a: Id, b: Id, id: Id)
    requires a != b && PieceOf(pieces, b) == Some(id)
    ensures PieceOf(pieces, a) != Some(id)
  {
  }

  // ---------------------------------------------------------------- a close, on its own data

  /** The reaction an outcome answers: the last one under its id. */
  predicate Answers(reactions: seq<Reaction>, o: Outcome, m: nat) {
    && m < |reactions| && o.reaction == Some(reactions[m].id)
    && forall i :: m < i < |reactions| ==> reactions[i].id != reactions[m].id
  }

  /** An outcome that moves nothing: no escape in it, one that succeeded without a destination, or one that
      failed without a landing. */
  predicate StaysPut(react: Reaction, o: Outcome) {
    || o.escape.None?
    || (o.escape.value.escaped && react.move.None?)
    || (!o.escape.value.escaped && o.escape.value.landing.None?)
  }

  /** No outcome after the k-th answers a reaction of ch, but for those that move nothing. */
  ghost predicate LastFor(reactions: seq<Reaction>, outcomes: seq<Outcome>, k: nat, ch: Id) {
    forall j: nat, m: nat :: k < j < |outcomes| && Answers(reactions, outcomes[j], m) ==>
      reactions[m].actor != ch || StaysPut(reactions[m], outcomes[j])
  }

  lemma {:induction false} FoundIsLast(reactions: seq<Reaction>, o: Outcome) returns (m: nat)
    requires o.reaction.Some? && ById(reactions, o.reaction.value).Some?
    ensures Answers(reactions, o, m) && ById(reactions, o.reaction.value) == Some(reactions[m])
  {
    var n := |reactions| - 1;
    if reactions[n].id == o.reaction.value { m := n; } else { m := FoundIsLast(reactions[..n], o); }
  }

  lemma {:induction false} LastIsFound(reactions: seq<Reaction>, o: Outcome, m: nat)
    requires Answers(reactions, o, m)
    ensures ById(reactions, o.reaction.value) == Some(reactions[m])
  {
    if m < |reactions| - 1 { LastIsFound(reactions[..|reactions| - 1], o, m); }
  }

  /** The piece a character moves by: of its pieces, the one with the lowest id. */
  lemma LowestIsPieceOf(pieces: Pieces, ch: Id, id: Id)
    ensures PieceOf(pieces, ch) == Some(id) <==>
      && id in pieces && pieces[id].character == ch
      && forall other :: other in pieces && pieces[other].character == ch ==> id <= other
    ensures PieceOf(pieces, ch) == None <==> forall other :: other in pieces ==> pieces[other].character != ch
  {
    if IsPieceOf(pieces, ch, id) { PieceOfIs(pieces, ch, id); }
    if other :| other in pieces && pieces[other].character == ch { LowestExists(pieces, ch, other); }
  }

  /** The piece each escaping character moves by ends where the last outcome of a reaction of theirs says: at
      that reaction's destination if it escaped, at the master's landing if it failed with one. */
  lemma EscapedPiece(pieces: Pieces, reactions: seq<Reaction>, outcomes: seq<Outcome>, k: nat, m: nat, id: Id)
    requires k < |outcomes| && Answers(reactions, outcomes[k], m)
    requires LastFor(reactions, outcomes, k, reactions[m].actor) && IsPieceOf(pieces, reactions[m].actor, id)
    ensures var after := Escaped(pieces, reactions, outcomes);
      var react, e := reactions[m], outcomes[k].escape;
      && id in after
      && (e.Some? && e.value.escaped && react.move.Some? ==> StandsAt(pieces[id], after[id], react.move.value))
      && (e.Some? && !e.value.escaped && e.value.landing.Some? ==>
            StandsAt(pieces[id], after[id], e.value.landing.value))
  {
    LastIsFound(reactions, outcomes[k], m);
    PieceOfIs(pieces, reactions[m].actor, id);
    EscapedOnlySlots(pieces, reactions, outcomes);
    if Displacement(reactions, outcomes[k]).Some? {
      forall j | k < j < |outcomes| && Displacement(reactions, outcomes[j]).Some?
        ensures Displacement(reactions, outcomes[j]).value.0 != reactions[m].actor
      {
        var later := FoundIsLast(reactions, outcomes[j]);
      }
      SlotAt(pieces[id].slot, Displacement(reactions, outcomes[k]).value.1);
      DisplacedPiece(pieces, reactions, outcomes, k, id);
    }
  }

  /** And a piece is the very piece it was if no outcome of the close answers a reaction of who moves by it,
      but for those that move nothing. */
  lemma UntouchedPiece(pieces: Pieces, reactions: seq<Reaction>, outcomes: seq<Outcome>, id: Id)
    requires id in pieces
    requires forall i: nat, m: nat :: i < |outcomes| && Answers(reactions, outcomes[i], m) ==>
      !IsPieceOf(pieces, reactions[m].actor, id) || StaysPut(reactions[m], outcomes[i])
    ensures id in Escaped(pieces, reactions, outcomes) && Escaped(pieces, reactions, outcomes)[id] == pieces[id]
  {
    forall i | 0 <= i < |outcomes| && Displacement(reactions, outcomes[i]).Some?
      ensures PieceOf(pieces, Displacement(reactions, outcomes[i]).value.0) != Some(id)
    {
      var m := FoundIsLast(reactions, outcomes[i]);
      LowestIsPieceOf(pieces, reactions[m].actor, id);
    }
    UndisplacedPiece(pieces, reactions, outcomes, id);
  }

  /** The cell judged for the recorded landing views is the one on the board: after the close, the piece the
      gate looks up for the escaping character stands at the destination the close walked it to. */
  lemma JudgedWhereItStands(pieces: Pieces, reactions: seq<Reaction>, outcomes: seq<Outcome>, k: nat, m: nat)
    requires k < |outcomes| && Answers(reactions, outcomes[k], m) && !StaysPut(reactions[m], outcomes[k])
    requires LastFor(reactions, outcomes, k, reactions[m].actor)
    ensures var actor, e := reactions[m].actor, outcomes[k].escape.value;
      var to := if e.escaped then reactions[m].move.value else e.landing.value;
      var after := Escaped(pieces, reactions, outcomes);
      match PieceOf(after, actor)
      case None => PieceOf(pieces, actor) == None
      case Some(id) => id in after && AB(after[id].slot) == (to.a, to.b)
  {
    var actor := reactions[m].actor;
    EscapedOnlySlots(pieces, reactions, outcomes);
    SamePieceOf(pieces, Escaped(pieces, reactions, outcomes), actor);
    if PieceOf(pieces, actor).Some? { EscapedPiece(pieces, reactions, outcomes, k, m, PieceOf(pieces, actor).value); }
  }

  /** The one piece rule a match keeps: no character with two. */
  ghost predicate OnePieceEach(pieces: Pieces) {
    forall i, j :: i in pieces && j in pieces && pieces[i].character == pieces[j].character ==> i == j
  }

  /** Neither a move, nor the master's hand whatever happened meanwhile, nor a close gives a character a
      second piece. */
  lemma NobodyGetsASecondPiece(pieces: Pieces, ch: Id, pos: Cell, placed: Piece, reactions: seq<Reaction>,
      outcomes: seq<Outcome>)
    requires OnePieceEach(pieces)
    ensures OnePieceEach(Moved(pieces, ch, pos)) && OnePieceEach(Escaped(pieces, reactions, outcomes))
    ensures placed.id !in pieces && PieceOf(pieces, placed.character).None? ==>
      OnePieceEach(pieces[placed.id := placed])
  {
    MovedOnlySlots(pieces, ch, pos);
    EscapedOnlySlots(pieces, reactions, outcomes);
    forall i | i in pieces && pieces[i].character == placed.character ensures PieceOf(pieces, placed.character).Some? {
      LowestExists(pieces, placed.character, i);
    }
  }
}
