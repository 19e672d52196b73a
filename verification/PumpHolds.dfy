/** No interleaving of pumps orphans a held record: whoever accepts one does it in the section that
    checks the open turn, and whoever closes the turn drains it. Granularity: lock sections. */
module PumpHolds {
  import opened Prelude
  import opened Store
  import opened RoomSpec
  import opened Pumps

  /** The turn whose close a pump is carrying out, before or after the drain. */
  function Closing(q: Pump): Option<Id> {
    match q
    case Draining(t, _) => Some(t)
    case TurnWriting(data) => Some(data.turn)
    case Reading(_, _) => None
    case Ensuring(_, _, _) => None
    case Written(_, _) => None
    case RoundEnding(_) => None
    case Ending(_, _) => None
    case EndWriting(_, _, _) => None
    case EndFailed(_) => None
    case Leaving(_, _, _) => None
    case LeaveFailed(_, _, _) => None
  }

  ghost predicate InFlight(s: State, t: Id) {
    exists p :: p in s.pumps && Closing(s.pumps[p]) == Some(t)
  }

  ghost predicate Undrained(s: State, t: Id) {
    s.current == Some(t) || exists p :: p in s.pumps && s.pumps[p].Draining? && s.pumps[p].turn == t
  }

  ghost predicate Attempted(s: State, t: Id) {
    exists i :: 0 <= i < |s.attempts| && s.attempts[i].turn == t
  }

  /** No two pumps close the same turn. */
  ghost predicate OneCloserEach(s: State) {
    forall p, q :: p in s.pumps && q in s.pumps && Closing(s.pumps[p]).Some? ==>
      Closing(s.pumps[p]) == Closing(s.pumps[q]) ==> p == q
  }

  /** Turn ids are fresh, and each closed turn is in exactly one pump or exactly one attempt. */
  ghost predicate ClosesApart(s: State) {
    && (s.current.Some? ==> s.current.value < s.nextId && s.current.value !in s.closed)
    && (forall t :: t in s.closed ==> t < s.nextId)
    && (forall p :: p in s.pumps && Closing(s.pumps[p]).Some? ==> Closing(s.pumps[p]).value in s.closed)
    && (forall i :: 0 <= i < |s.attempts| ==> s.attempts[i].turn in s.closed)
    && OneCloserEach(s)
    && (forall p, i :: p in s.pumps && 0 <= i < |s.attempts| ==> Closing(s.pumps[p]) != Some(s.attempts[i].turn))
    && (forall i, j :: 0 <= i < j < |s.attempts| ==> s.attempts[i].turn != s.attempts[j].turn)
    && (forall t :: t in s.closed ==> InFlight(s, t) || Attempted(s, t))
  }

  /** Held is everything accepted, until the drain; and nothing is held for any other turn. */
  ghost predicate HoldsSound(s: State) {
    && (forall t :: t in s.pending ==> Undrained(s, t))
    && (forall t :: Undrained(s, t) ==> Held(s.pending, t) == Held(s.accepted, t))
    && (forall p :: p in s.pumps && s.pumps[p].TurnWriting? ==>
          s.pumps[p].data.held == Held(s.accepted, s.pumps[p].data.turn))
    && (forall i :: 0 <= i < |s.attempts| ==> s.attempts[i].held == Held(s.accepted, s.attempts[i].turn))
    && (forall t :: t in s.accepted ==> t < s.nextId)
  }

  ghost predicate HoldInv(s: State) { ClosesApart(s) && HoldsSound(s) }

  /** Steps that neither open, close, drain, hold nor write a turn. */
  ghost predicate SameHolds(s: State, s': State) {
    && s'.current == s.current && s'.pending == s.pending && s'.accepted == s.accepted
    && s'.attempts == s.attempts && s'.closed == s.closed && s.nextId <= s'.nextId
  }

  lemma QuietApart(s: State, s': State, p: nat)
    requires ClosesApart(s) && SameHolds(s, s') && OthersStay(s, s', p)
    requires (p in s.pumps ==> Closing(s.pumps[p]).None?) && (p in s'.pumps ==> Closing(s'.pumps[p]).None?)
    ensures ClosesApart(s')
  {
    forall t | t in s'.closed ensures InFlight(s', t) || Attempted(s', t) {
      if InFlight(s, t) {
        var q :| q in s.pumps && Closing(s.pumps[q]) == Some(t);
        assert q in s'.pumps && s'.pumps[q] == s.pumps[q];
      } else {
        assert Attempted(s, t);
      }
    }
  }

  lemma QuietHolds(s: State, s': State, p: nat)
    requires HoldsSound(s) && SameHolds(s, s') && OthersStay(s, s', p)
    requires (p in s.pumps ==> Closing(s.pumps[p]).None?) && (p in s'.pumps ==> Closing(s'.pumps[p]).None?)
    ensures HoldsSound(s')
  {
  }

  lemma QuietKeeps(s: State, s': State, p: nat)
    requires HoldInv(s) && SameHolds(s, s') && OthersStay(s, s', p)
    requires (p in s.pumps ==> Closing(s.pumps[p]).None?) && (p in s'.pumps ==> Closing(s'.pumps[p]).None?)
    ensures HoldInv(s')
  {
    QuietApart(s, s', p);
    QuietHolds(s, s', p);
  }

  /** A turn may open, with a fresh id, when none is. */
  lemma OpenKeeps(s: State, s': State)
    requires HoldInv(s) && s.current.None? && s.nextId < s'.nextId
    requires s' == s.(current := Some(s.nextId), nextId := s'.nextId)
    ensures HoldInv(s')
  {
  }

  /** The open turn closes, and the pump that closed it has it to drain. */
  lemma CloseApart(s: State, s': State, p: nat, closedIn: Option<RoundSnap>)
    requires ClosesApart(s) && s.current.Some? && p !in s.pumps && s.nextId <= s'.nextId
    requires s'.current == None && s'.closed == s.closed + {s.current.value} && s'.attempts == s.attempts
    requires s'.pumps == s.pumps[p := Draining(s.current.value, closedIn)]
    ensures ClosesApart(s')
  {
    forall t | t in s'.closed ensures InFlight(s', t) || Attempted(s', t) {
      if t == s.current.value {
        assert Closing(s'.pumps[p]) == Some(t);
      } else if InFlight(s, t) {
        var q :| q in s.pumps && Closing(s.pumps[q]) == Some(t);
        assert q in s'.pumps && s'.pumps[q] == s.pumps[q];
      } else {
        assert Attempted(s, t);
      }
    }
  }

  lemma CloseHolds(s: State, s': State, p: nat, closedIn: Option<RoundSnap>)
    requires HoldsSound(s) && s.current.Some? && p !in s.pumps && s.nextId <= s'.nextId
    requires s'.current == None && s'.attempts == s.attempts && s'.pending == s.pending && s'.accepted == s.accepted
    requires s'.pumps == s.pumps[p := Draining(s.current.value, closedIn)]
    ensures HoldsSound(s')
  {
    forall t: Id ensures Undrained(s', t) <==> Undrained(s, t) {
      if s.current == Some(t) {
        assert s'.pumps[p].turn == t;
      } else if Undrained(s, t) {
        var q :| q in s.pumps && s.pumps[q].Draining? && s.pumps[q].turn == t;
        assert q in s'.pumps && s'.pumps[q] == s.pumps[q];
      }
    }
  }

  lemma TurnOverKeeps(s: State, p: nat, opens: bool)
    requires HoldInv(s) && p !in s.pumps
    ensures HoldInv(DoTurnOver(s, p, opens))
  {
    var closed := if s.current.Some? then Started(CloseTurnNow(s), p, Draining(s.current.value, None)) else s;
    if s.current.Some? {
      CloseApart(s, closed, p, None);
      CloseHolds(s, closed, p, None);
    }
    if opens {
      OpenKeeps(closed, closed.(current := Some(closed.nextId), nextId := closed.nextId + 1));
      assert DoTurnOver(s, p, opens) == closed.(current := Some(closed.nextId), nextId := closed.nextId + 1);
    } else {
      assert DoTurnOver(s, p, opens) == closed;
    }
  }

  lemma RoundOverKeeps(s: State, p: nat, at: Time)
    requires HoldInv(s) && p !in s.pumps
    ensures HoldInv(DoRoundOver(s, p, at))
  {
    var s' := DoRoundOver(s, p, at);
    if s.current.Some? {
      CloseApart(s, s', p, Some(RoundSnap(s.round, Free, Some(at))));
      CloseHolds(s, s', p, Some(RoundSnap(s.round, Free, Some(at))));
    } else {
      QuietKeeps(s, s', p);
    }
  }

  lemma HoldApart(s: State, s': State)
    requires ClosesApart(s) && s' == s.(pending := s'.pending, accepted := s'.accepted)
    ensures ClosesApart(s')
  {
    forall t | t in s'.closed ensures InFlight(s', t) || Attempted(s', t) { assert InFlight(s, t) || Attempted(s, t); }
  }

  /** One more record for the open turn, held and accepted together. */
  lemma HoldSound(s: State, held: TurnWrites, s': State)
    requires HoldInv(s) && s.current.Some?
    requires s' == s.(pending := s.pending[s.current.value := held], accepted := s.accepted[s.current.value := held])
    ensures HoldsSound(s')
  {
    var t := s.current.value;
    forall u: Id ensures Undrained(s', u) <==> Undrained(s, u) { }
    forall q | q in s.pumps && s.pumps[q].TurnWriting? ensures s.pumps[q].data.turn != t {
      assert Closing(s.pumps[q]) == Some(s.pumps[q].data.turn);
    }
    forall i | 0 <= i < |s.attempts| ensures s.attempts[i].turn != t { assert s.attempts[i].turn in s.closed; }
  }

  lemma HoldKeeps(s: State, rec: Id, master: bool)
    requires HoldInv(s)
    ensures HoldInv(DoHold(s, rec, master))
  {
    if s.current.Some? {
      var t := s.current.value;
      assert Undrained(s, t);
      var r := Record(rec, s.scene, s.round, s.current);
      var held := Held(s.pending, t);
      var more := if master then held.(masterActions := held.masterActions + [r])
          else held.(cancelledActions := held.cancelledActions + [r]);
      HoldApart(s, DoHold(s, rec, master));
      HoldSound(s, more, DoHold(s, rec, master));
    }
  }

  lemma DrainApart(s: State, p: nat, data: TurnClose, s': State)
    requires ClosesApart(s) && p in s.pumps && s.pumps[p].Draining? && data.turn == s.pumps[p].turn
    requires s' == s.(pending := s'.pending, pumps := s.pumps[p := TurnWriting(data)])
    ensures ClosesApart(s')
  {
    forall q | q in s'.pumps ensures q in s.pumps && Closing(s'.pumps[q]) == Closing(s.pumps[q]) { }
    forall u | u in s'.closed ensures InFlight(s', u) || Attempted(s', u) {
      if InFlight(s, u) {
        var q :| q in s.pumps && Closing(s.pumps[q]) == Some(u);
        assert q in s'.pumps && Closing(s'.pumps[q]) == Some(u);
      } else {
        assert Attempted(s, u);
      }
    }
  }

  lemma DrainedTurn(s: State, p: nat, data: TurnClose, s': State, u: Id)
    requires ClosesApart(s) && p in s.pumps && s.pumps[p].Draining? && data.turn == s.pumps[p].turn
    requires s' == s.(pending := s'.pending, pumps := s.pumps[p := TurnWriting(data)])
    ensures Undrained(s', u) <==> Undrained(s, u) && u != data.turn
  {
    assert Closing(s.pumps[p]) == Some(data.turn);
    if Undrained(s, u) && u != data.turn && s.current != Some(u) {
      var q :| q in s.pumps && s.pumps[q].Draining? && s.pumps[q].turn == u;
      assert q in s'.pumps && s'.pumps[q] == s.pumps[q];
    }
    if Undrained(s', u) && s.current != Some(u) {
      var q :| q in s'.pumps && s'.pumps[q].Draining? && s'.pumps[q].turn == u;
      assert q != p && Closing(s.pumps[q]) == Some(u);
    }
  }

  /** The drain hands over what was accepted for that turn, all of it and nothing else. */
  lemma DrainHolds(s: State, p: nat, data: TurnClose, s': State)
    requires HoldInv(s) && p in s.pumps && s.pumps[p].Draining?
    requires data.turn == s.pumps[p].turn && data.held == Held(s.pending, data.turn)
    requires s' == s.(pending := s.pending - {data.turn}, pumps := s.pumps[p := TurnWriting(data)])
    ensures HoldsSound(s')
  {
    assert Undrained(s, data.turn);
    forall u: Id ensures Undrained(s', u) <==> Undrained(s, u) && u != data.turn { DrainedTurn(s, p, data, s', u); }
  }

  lemma DrainKeeps(s: State, p: nat, ok: bool)
    requires HoldInv(s) && p in s.pumps && s.pumps[p].Draining?
    ensures HoldInv(DoAdvance(s, p, ok))
  {
    var s' := DoDrain(s, p, s.pumps[p].turn, s.pumps[p].closedIn);
    assert DoAdvance(s, p, ok) == s';
    var data := s'.pumps[p].data;
    assert s' == s.(pending := s.pending - {data.turn}, pumps := s.pumps[p := TurnWriting(data)]);
    DrainApart(s, p, data, s');
    DrainHolds(s, p, data, s');
  }

  /** The write is the one attempt of that turn. */
  lemma TurnWriteApart(s: State, p: nat, s': State)
    requires ClosesApart(s) && p in s.pumps && s.pumps[p].TurnWriting? && OthersStay(s, s', p)
    requires s'.attempts == s.attempts + [s.pumps[p].data] && s'.current == s.current && s'.closed == s.closed
      && s'.nextId == s.nextId
    requires p in s'.pumps ==> Closing(s'.pumps[p]).None?
    ensures ClosesApart(s')
  {
    var data := s.pumps[p].data;
    assert Closing(s.pumps[p]) == Some(data.turn);
    assert s'.attempts[|s.attempts|] == data;
    forall t | t in s'.closed ensures InFlight(s', t) || Attempted(s', t) {
      if t == data.turn {
        assert s'.attempts[|s.attempts|].turn == t;
      } else if InFlight(s, t) {
        var q :| q in s.pumps && Closing(s.pumps[q]) == Some(t);
        assert q in s'.pumps && s'.pumps[q] == s.pumps[q];
      } else {
        var i :| 0 <= i < |s.attempts| && s.attempts[i].turn == t;
        assert s'.attempts[i].turn == t;
      }
    }
  }

  lemma TurnWriteHolds(s: State, p: nat, s': State)
    requires HoldsSound(s) && p in s.pumps && s.pumps[p].TurnWriting? && OthersStay(s, s', p)
    requires s'.attempts == s.attempts + [s.pumps[p].data] && s'.current == s.current && s'.nextId == s.nextId
    requires s'.pending == s.pending && s'.accepted == s.accepted
    requires p in s'.pumps ==> Closing(s'.pumps[p]).None?
    ensures HoldsSound(s')
  {
  }

  lemma TurnWriteMoves(s: State, p: nat, ok: bool)
    requires p in s.pumps && s.pumps[p].TurnWriting?
    ensures var s' := DoAdvance(s, p, ok);
      && OthersStay(s, s', p) && s'.attempts == s.attempts + [s.pumps[p].data]
      && s'.current == s.current && s'.closed == s.closed && s'.nextId == s.nextId
      && s'.pending == s.pending && s'.accepted == s.accepted
      && (p in s'.pumps ==> Closing(s'.pumps[p]).None?)
  {
  }

  lemma TurnWriteKeeps(s: State, p: nat, ok: bool)
    requires HoldInv(s) && p in s.pumps && s.pumps[p].TurnWriting?
    ensures HoldInv(DoAdvance(s, p, ok))
  {
    TurnWriteMoves(s, p, ok);
    TurnWriteApart(s, p, DoAdvance(s, p, ok));
    TurnWriteHolds(s, p, DoAdvance(s, p, ok));
  }

  ghost predicate QuietStep(s: State, s': State, p: nat) {
    SameHolds(s, s') && OthersStay(s, s', p) && (p in s'.pumps ==> Closing(s'.pumps[p]).None?)
  }

  lemma StartedIsQuiet(s: State, s1: State, p: nat, q: Pump)
    requires SameHolds(s, s1) && s1.pumps == s.pumps && Closing(q).None?
    ensures QuietStep(s, Started(s1, p, q), p) && QuietStep(s, Stopped(s1, p), p)
  {
  }

  /** The steps of every other pump move no turn. */
  lemma OtherAdvances(s: State, p: nat, ok: bool)
    requires p in s.pumps && Closing(s.pumps[p]).None?
    ensures QuietStep(s, DoAdvance(s, p, ok), p)
  {
    match s.pumps[p] {
      case Reading(sc, rd) => StartedIsQuiet(s, s, p, Ensuring(sc, rd, s.ends));
      case Ensuring(sc, rd, ends) =>
        StartedIsQuiet(s, s.(disk := RoundClose(s.disk, ends, sc, rd)), p, Written(rd, ends));
        StartedIsQuiet(s, s, p, Written(rd, ends));
      case Written(rd, ends) =>
      case RoundEnding(closed) => StartedIsQuiet(s, s, p, Ending(RoundEnd(s.SceneNow(), closed), s.RoundNow()));
      case Ending(end, next) => StartedIsQuiet(s, s, p, EndWriting(end, next, s.ends + [end]));
      case EndWriting(end, next, ends) =>
        StartedIsQuiet(s, s.(disk := RoundClose(s.disk, ends, end.scene, next)), p, Written(next, ends));
        StartedIsQuiet(s, s, p, EndFailed(end));
      case EndFailed(end) => StartedIsQuiet(s, s.(ends := MarkEnd(s.ends, end)), p, EndFailed(end));
      case Leaving(end, sc, rd) => LeavingIsQuiet(s, p, ok);
      case LeaveFailed(end, sc, rd) => StartedIsQuiet(s, s.(ends := MarkEnd(s.ends, end)), p, Reading(sc, rd));
    }
  }

  lemma LeavingIsQuiet(s: State, p: nat, ok: bool)
    requires p in s.pumps && s.pumps[p].Leaving?
    ensures QuietStep(s, DoAdvance(s, p, ok), p)
  {
  }

  lemma AdvanceKeeps(s: State, p: nat, ok: bool)
    requires HoldInv(s)
    ensures HoldInv(DoAdvance(s, p, ok))
  {
    if p in s.pumps {
      if s.pumps[p].Draining? {
        DrainKeeps(s, p, ok);
      } else if s.pumps[p].TurnWriting? {
        TurnWriteKeeps(s, p, ok);
      } else {
        OtherAdvances(s, p, ok);
        QuietKeeps(s, DoAdvance(s, p, ok), p);
      }
    }
  }

  lemma MovedKeeps(s: State, m: Move)
    requires HoldInv(s)
    ensures HoldInv(Moved(s, m))
  {
    match m {
      case TurnOver(p, opens) => if p !in s.pumps { TurnOverKeeps(s, p, opens); }
      case RoundOver(p, at) => if p !in s.pumps { RoundOverKeeps(s, p, at); }
      case Hold(rec, master) => HoldKeeps(s, rec, master);
      case HoldIfOpen(_, rec, master) => HoldKeeps(s, rec, master);
      case Snapshot(p) => if p !in s.pumps { QuietKeeps(s, Moved(s, m), p); }
      case ChangeScene(p, _) => if p !in s.pumps && s.current.None? { QuietKeeps(s, Moved(s, m), p); }
      case Advance(p, ok) => AdvanceKeeps(s, p, ok);
    }
  }

  lemma {:induction false} PlayedKeeps(s: State, moves: seq<Move>)
    requires HoldInv(s)
    ensures HoldInv(Played(s, moves))
  {
    if moves != [] {
      PlayedKeeps(s, moves[..|moves| - 1]);
      MovedKeeps(Played(s, moves[..|moves| - 1]), moves[|moves| - 1]);
    }
  }

  // ---------------------------------------------------------------- what was accepted, read off the moves

  /** Move m, made at s, is a record accepted for turn t: t is open, and whoever holds it asks for the open
      turn or for t itself. */
  predicate TakenFor(s: State, m: Move, t: Id, master: bool) {
    && s.current == Some(t)
    && match m
       case Hold(_, kind) => kind == master
       case HoldIfOpen(turn, _, kind) => turn == t && kind == master
       case TurnOver(_, _) => false
       case RoundOver(_, _) => false
       case Snapshot(_) => false
       case ChangeScene(_, _) => false
       case Advance(_, _) => false
  }

  /** The master actions, or the cancellations, of a run made while turn t was open, in the order made. */
  function AcceptedIn(moves: seq<Move>, t: Id, master: bool): seq<Record> {
    if moves == [] then []
    else
      var before, m := Played(START, moves[..|moves| - 1]), moves[|moves| - 1];
      AcceptedIn(moves[..|moves| - 1], t, master) +
      if TakenFor(before, m, t, master) then [Record(m.rec, before.scene, before.round, Some(t))] else []
  }

  lemma AdvanceAcceptsNothing(s: State, p: nat, ok: bool)
    ensures DoAdvance(s, p, ok).accepted == s.accepted
  {
    AdvanceMovesNoTurn(s, p, ok);
  }

  lemma MovedAccepts(s: State, m: Move, t: Id)
    ensures var before, after := Held(s.accepted, t), Held(Moved(s, m).accepted, t);
      && after.masterActions == before.masterActions +
         (if TakenFor(s, m, t, true) then [Record(m.rec, s.scene, s.round, Some(t))] else [])
      && after.cancelledActions == before.cancelledActions +
         (if TakenFor(s, m, t, false) then [Record(m.rec, s.scene, s.round, Some(t))] else [])
  {
    if m.Hold? || (m.HoldIfOpen? && s.current == Some(m.turn)) {
      HoldAccepts(s, m.rec, m.master, t);
    } else if m.Advance? {
      AdvanceAcceptsNothing(s, m.p, m.ok);
    }
  }

  lemma HoldAccepts(s: State, rec: Id, master: bool, t: Id)
    ensures var before, after := Held(s.accepted, t), Held(DoHold(s, rec, master).accepted, t);
      && after.masterActions == before.masterActions +
         (if s.current == Some(t) && master then [Record(rec, s.scene, s.round, Some(t))] else [])
      && after.cancelledActions == before.cancelledActions +
         (if s.current == Some(t) && !master then [Record(rec, s.scene, s.round, Some(t))] else [])
  {
  }

  lemma {:induction false} AcceptedIsWhatWasMade(moves: seq<Move>, t: Id)
    ensures var accepted := Held(Played(START, moves).accepted, t);
      accepted.masterActions == AcceptedIn(moves, t, true) && accepted.cancelledActions == AcceptedIn(moves, t, false)
  {
    if moves != [] {
      AcceptedIsWhatWasMade(moves[..|moves| - 1], t);
      MovedAccepts(Played(START, moves[..|moves| - 1]), moves[|moves| - 1], t);
    }
  }

  ghost predicate HeldIs(held: TurnWrites, moves: seq<Move>, t: Id) {
    held.masterActions == AcceptedIn(moves, t, true) && held.cancelledActions == AcceptedIn(moves, t, false)
  }

  ghost predicate TurnsOver(s: State, s': State, p: nat, opens: bool) {
    && s'.closed == s.closed + (if s.current.Some? then {s.current.value} else {})
    && (s.current.Some? ==> p in s'.pumps && s'.pumps[p].Draining? && s'.pumps[p].turn == s.current.value)
    && (s'.current.Some? <==> opens)
    && (opens ==> s'.current.value !in s'.closed && s'.current.value >= s.nextId)
  }

  lemma TurnOverMoves(s: State, p: nat, opens: bool)
    requires ClosesApart(s)
    ensures TurnsOver(s, DoTurnOver(s, p, opens), p, opens)
  {
  }

  lemma RoundOverMoves(s: State, p: nat, at: Time)
    requires s.round < s.nextId
    ensures var s' := DoRoundOver(s, p, at); TurnsOver(s, s', p, false) && s'.round != s.round && s.round in s'.ended
  {
  }

  /** Which turn is open, move by move: a verb whose pump is free closes the open turn, which that pump then
      drains, and opens a turn nobody has seen exactly when it is to; nothing else opens or closes one. A
      round that ends is noted, and its successor is another round. */
  lemma OpenTurnAfter(moves: seq<Move>, m: Move)
    ensures var s, s' := Played(START, moves), Played(START, moves + [m]);
      if (m.TurnOver? || m.RoundOver?) && m.p !in s.pumps then
        && TurnsOver(s, s', m.p, m.TurnOver? && m.opens)
        && (m.RoundOver? ==> s'.round != s.round && s.round in s'.ended)
      else s'.current == s.current && s'.closed == s.closed
  {
    var s := Played(START, moves);
    assert (moves + [m])[..|moves|] == moves;
    StartHolds();
    PlayedKeeps(START, moves);
    RoundIsKnown(moves);
    match m {
      case TurnOver(p, opens) => if p !in s.pumps { TurnOverMoves(s, p, opens); }
      case RoundOver(p, at) => if p !in s.pumps { RoundOverMoves(s, p, at); }
      case Hold(_, _) => OthersMoveNoTurn(s, m);
      case HoldIfOpen(_, _, _) => OthersMoveNoTurn(s, m);
      case Snapshot(_) => OthersMoveNoTurn(s, m);
      case ChangeScene(_, _) => OthersMoveNoTurn(s, m);
      case Advance(p, ok) => AdvanceMovesNoTurn(s, p, ok);
    }
  }

  lemma OthersMoveNoTurn(s: State, m: Move)
    requires m.Hold? || m.HoldIfOpen? || m.Snapshot? || m.ChangeScene?
    ensures Moved(s, m).current == s.current && Moved(s, m).closed == s.closed
  {
  }

  lemma StartHolds()
    ensures HoldInv(START)
  {
  }

  /** Under every interleaving, nothing is held for a turn nobody will drain, and until the drain what is
      held for a turn is every record the moves made while it was open, in order. */
  lemma NoHeldRecordIsOrphaned(moves: seq<Move>, t: Id)
    ensures var s := Played(START, moves);
      && (t in s.pending ==> Undrained(s, t))
      && (Undrained(s, t) ==> HeldIs(Held(s.pending, t), moves, t))
  {
    StartHolds();
    PlayedKeeps(START, moves);
    AcceptedIsWhatWasMade(moves, t);
  }

  /** Under every interleaving, each closed turn is being written by exactly one pump or was tried exactly
      once, never both, and the call carries every record the moves made while the turn was open, in order. */
  lemma EachCloseIsTriedOnce(moves: seq<Move>)
    ensures var s := Played(START, moves);
      && (forall t :: t in s.closed ==> (InFlight(s, t) <==> !Attempted(s, t)))
      && OneCloserEach(s)
      && (forall i, j :: 0 <= i < j < |s.attempts| ==> s.attempts[i].turn != s.attempts[j].turn)
      && (forall i :: 0 <= i < |s.attempts| ==>
            s.attempts[i].turn in s.closed && HeldIs(s.attempts[i].held, moves, s.attempts[i].turn))
  {
    var s := Played(START, moves);
    StartHolds();
    PlayedKeeps(START, moves);
    forall i | 0 <= i < |s.attempts| ensures HeldIs(s.attempts[i].held, moves, s.attempts[i].turn) {
      AcceptedIsWhatWasMade(moves, s.attempts[i].turn);
    }
  }
}
