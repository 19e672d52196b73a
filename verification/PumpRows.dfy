/** What happens inside a turn is durable with that turn's close or not at all, under every interleaving.
    Granularity: lock sections. */
module PumpRows {
  import opened Prelude
  import opened Store
  import opened RoomSpec
  import opened LiveView
  import opened TurnInvariant
  import opened Pumps
  import opened PumpHolds

  /** Move m is the PersistTurnClose of turn t, and it goes through. */
  predicate CommitsTurn(s: State, m: Move, t: Id) {
    m.Advance? && m.ok && m.p in s.pumps && s.pumps[m.p].TurnWriting? && s.pumps[m.p].data.turn == t
  }

  ghost predicate Committed(moves: seq<Move>, t: Id) {
    exists k :: 0 <= k < |moves| && CommitsTurn(Played(START, moves[..k]), moves[k], t)
  }

  /** Everything accepted in a turn says so. */
  ghost predicate AcceptedTold(s: State) {
    forall t :: t in s.accepted ==>
      AllOf(s.accepted[t].masterActions, Some(t)) && AllOf(s.accepted[t].cancelledActions, Some(t))
  }

  ghost predicate RowsOf(s: State, t: Id) {
    && OfTurn(s.disk.masterActions, t) == (if t in s.disk.turns then Held(s.accepted, t).masterActions else [])
    && OfTurn(s.disk.cancelledActions, t) == (if t in s.disk.turns then Held(s.accepted, t).cancelledActions else [])
  }

  ghost predicate RowsInv(s: State) {
    && HoldInv(s) && AcceptedTold(s)
    && (forall t :: t in s.disk.turns ==> Attempted(s, t))
    && (forall t :: RowsOf(s, t))
  }

  /** The record rows and the turn rows. */
  predicate SameRows(d: Disk, d': Disk) {
    d'.turns == d.turns && d'.masterActions == d.masterActions && d'.cancelledActions == d.cancelledActions
  }

  lemma OtherWrites(s: State, p: nat, ok: bool)
    requires p in s.pumps && !s.pumps[p].TurnWriting?
    ensures var s' := DoAdvance(s, p, ok); SameRows(s.disk, s'.disk) && s'.attempts == s.attempts
  {
    match s.pumps[p] {
      case Reading(_, _) =>
      case Ensuring(_, _, _) => PairWrites(s, p, ok);
      case Written(_, _) =>
      case RoundEnding(_) =>
      case Ending(_, _) =>
      case EndWriting(_, _, _) => PairWrites(s, p, ok);
      case EndFailed(_) =>
      case Draining(t, closedIn) => assert DoAdvance(s, p, ok) == DoDrain(s, p, t, closedIn);
      case Leaving(_, _, _) => LeavingWrites(s, p, ok);
      case LeaveFailed(_, _, _) => LeavingWrites(s, p, ok);
    }
  }

  lemma PairWrites(s: State, p: nat, ok: bool)
    requires p in s.pumps && (s.pumps[p].Ensuring? || s.pumps[p].EndWriting?)
    ensures var s' := DoAdvance(s, p, ok); SameRows(s.disk, s'.disk) && s'.attempts == s.attempts
  {
    WriteEndsOnlyPairs(s.disk, s.pumps[p].ends);
  }

  lemma LeavingWrites(s: State, p: nat, ok: bool)
    requires p in s.pumps && (s.pumps[p].Leaving? || s.pumps[p].LeaveFailed?)
    ensures var s' := DoAdvance(s, p, ok); SameRows(s.disk, s'.disk) && s'.attempts == s.attempts
  {
  }

  lemma TurnWrites(s: State, p: nat, ok: bool)
    requires p in s.pumps && s.pumps[p].TurnWriting?
    ensures var s', data := DoAdvance(s, p, ok), s.pumps[p].data;
      && s'.attempts == s.attempts + [data]
      && s'.disk.turns == (if ok then s.disk.turns[data.turn := data.round.id] else s.disk.turns)
      && s'.disk.masterActions ==
         s.disk.masterActions + (if ok then data.held.masterActions else [])
      && s'.disk.cancelledActions ==
         s.disk.cancelledActions + (if ok then data.held.cancelledActions else [])
  {
    TurnTxLive(s.disk, s.pumps[p].data);
    WriteEndsOnlyPairs(s.disk, s.pumps[p].data.ends);
    AdvanceWrites(s, p, ok);
  }

  lemma AdvanceWrites(s: State, p: nat, ok: bool)
    requires p in s.pumps && s.pumps[p].TurnWriting?
    ensures var s', data := DoAdvance(s, p, ok), s.pumps[p].data;
      s'.attempts == s.attempts + [data] && s'.disk == (if ok then TurnTx(s.disk, data) else s.disk)
  {
  }

  lemma TurnWriteRows(s: State, p: nat, ok: bool)
    requires RowsInv(s) && p in s.pumps && s.pumps[p].TurnWriting?
    ensures RowsInv(DoAdvance(s, p, ok))
  {
    AdvanceKeeps(s, p, ok);
    AdvanceAcceptsNothing(s, p, ok);
    TurnWrites(s, p, ok);
    NotYetWritten(s, p);
    WrittenRows(s, s.pumps[p].data, ok, DoAdvance(s, p, ok));
  }

  lemma WrittenRows(s: State, data: TurnClose, ok: bool, s': State)
    requires RowsInv(s) && HoldInv(s') && s'.accepted == s.accepted && s'.attempts == s.attempts + [data]
    requires data.held == Held(s.accepted, data.turn) && data.turn !in s.disk.turns
    requires s'.disk.turns == if ok then s.disk.turns[data.turn := data.round.id] else s.disk.turns
    requires s'.disk.masterActions == s.disk.masterActions + (if ok then data.held.masterActions else [])
    requires s'.disk.cancelledActions == s.disk.cancelledActions + (if ok then data.held.cancelledActions else [])
    ensures RowsInv(s')
  {
    forall t | t in s'.disk.turns ensures Attempted(s', t) { AttemptedStill(s, data, s', t); }
    assert !ok ==> SameRows(s.disk, s'.disk);
    forall t ensures RowsOf(s', t) { if ok { CommittedRows(s, data, s', t); } else { assert RowsOf(s, t); } }
  }

  /** A turn a pump is writing is no row yet, and what it carries is what was accepted. */
  lemma NotYetWritten(s: State, p: nat)
    requires RowsInv(s) && p in s.pumps && s.pumps[p].TurnWriting?
    ensures var data := s.pumps[p].data; data.turn !in s.disk.turns && data.held == Held(s.accepted, data.turn)
  {
    assert Closing(s.pumps[p]) == Some(s.pumps[p].data.turn);
  }

  lemma AttemptedStill(s: State, data: TurnClose, s': State, t: Id)
    requires s'.attempts == s.attempts + [data] && (t == data.turn || Attempted(s, t))
    ensures Attempted(s', t)
  {
    if t == data.turn {
      assert s'.attempts[|s.attempts|].turn == t;
    } else {
      var i :| 0 <= i < |s.attempts| && s.attempts[i].turn == t;
      assert s'.attempts[i].turn == t;
    }
  }

  lemma CommittedRows(s: State, data: TurnClose, s': State, t: Id)
    requires RowsOf(s, t) && AcceptedTold(s) && s'.accepted == s.accepted
    requires data.held == Held(s.accepted, data.turn) && data.turn !in s.disk.turns
    requires s'.disk.turns == s.disk.turns[data.turn := data.round.id]
    requires s'.disk.masterActions == s.disk.masterActions + data.held.masterActions
    requires s'.disk.cancelledActions == s.disk.cancelledActions + data.held.cancelledActions
    ensures RowsOf(s', t)
  {
    OfTurnSplits(s.disk.masterActions, data.held.masterActions, t);
    OfTurnSplits(s.disk.cancelledActions, data.held.cancelledActions, t);
    OfTurnUniform(data.held.masterActions, Some(data.turn), t);
    OfTurnUniform(data.held.cancelledActions, Some(data.turn), t);
  }

  lemma SameRowsKeep(s: State, s': State)
    requires RowsInv(s) && HoldInv(s') && SameRows(s.disk, s'.disk) && s'.attempts == s.attempts
    requires s'.accepted == s.accepted
    ensures RowsInv(s')
  {
    forall t | t in s'.disk.turns ensures Attempted(s', t) { assert Attempted(s, t); }
    forall t ensures RowsOf(s', t) { assert RowsOf(s, t); }
  }

  lemma HeldRows(s: State, rec: Id, master: bool)
    requires RowsInv(s)
    ensures RowsInv(DoHold(s, rec, master))
  {
    var s' := DoHold(s, rec, master);
    HoldKeeps(s, rec, master);
    if s.current.Some? {
      var t := s.current.value;
      assert t in s.disk.turns ==> Attempted(s, t);
      HeldFor(s, rec, master);
      HeldRowsStay(s, t, s'.accepted[t], s');
    }
  }

  lemma HeldFor(s: State, rec: Id, master: bool)
    requires s.current.Some? && AcceptedTold(s)
    ensures var t, s' := s.current.value, DoHold(s, rec, master);
      && t in s'.accepted && s'.accepted == s.accepted[t := s'.accepted[t]]
      && AllOf(s'.accepted[t].masterActions, Some(t)) && AllOf(s'.accepted[t].cancelledActions, Some(t))
      && s'.disk == s.disk && s'.attempts == s.attempts
  {
  }

  lemma HeldRowsStay(s: State, t: Id, more: TurnWrites, s': State)
    requires RowsInv(s) && HoldInv(s') && t !in s.disk.turns && s'.disk == s.disk && s'.attempts == s.attempts
    requires s'.accepted == s.accepted[t := more]
    requires AllOf(more.masterActions, Some(t)) && AllOf(more.cancelledActions, Some(t))
    ensures RowsInv(s')
  {
    forall u | u in s'.disk.turns ensures Attempted(s', u) { assert Attempted(s, u); }
    forall u ensures RowsOf(s', u) { assert RowsOf(s, u); }
  }

  lemma MovedRows(s: State, m: Move)
    requires RowsInv(s)
    ensures RowsInv(Moved(s, m))
  {
    if m.Hold? || (m.HoldIfOpen? && s.current == Some(m.turn)) {
      HeldRows(s, m.rec, m.master);
    } else if m.Advance? {
      AdvanceRows(s, m.p, m.ok);
    } else {
      MovedKeeps(s, m);
      VerbWrites(s, m);
      SameRowsKeep(s, Moved(s, m));
    }
  }

  lemma AdvanceRows(s: State, p: nat, ok: bool)
    requires RowsInv(s)
    ensures RowsInv(DoAdvance(s, p, ok))
  {
    if p in s.pumps {
      if s.pumps[p].TurnWriting? {
        TurnWriteRows(s, p, ok);
      } else {
        AdvanceKeeps(s, p, ok);
        OtherWrites(s, p, ok);
        AdvanceAcceptsNothing(s, p, ok);
        SameRowsKeep(s, DoAdvance(s, p, ok));
      }
    }
  }

  lemma VerbWrites(s: State, m: Move)
    requires !m.Advance? && !m.Hold? && !(m.HoldIfOpen? && s.current == Some(m.turn))
    ensures var s' := Moved(s, m); s'.disk == s.disk && s'.attempts == s.attempts && s'.accepted == s.accepted
  {
    if m.ChangeScene? { LeaveWrites(s, m.p, m.at); }
  }

  lemma LeaveWrites(s: State, p: nat, at: Time)
    ensures var s' := DoLeaveScene(s, p, at);
      s'.disk == s.disk && s'.attempts == s.attempts && s'.accepted == s.accepted
  {
  }

  lemma {:induction false} PlayedRows(moves: seq<Move>)
    ensures RowsInv(Played(START, moves))
  {
    if moves != [] {
      PlayedRows(moves[..|moves| - 1]);
      MovedRows(Played(START, moves[..|moves| - 1]), moves[|moves| - 1]);
    }
  }

  lemma CommitMoves(s: State, m: Move, t: Id)
    ensures t in Moved(s, m).disk.turns <==> t in s.disk.turns || CommitsTurn(s, m, t)
  {
    if m.Advance? && m.p in s.pumps {
      if s.pumps[m.p].TurnWriting? { TurnWrites(s, m.p, m.ok); } else { OtherWrites(s, m.p, m.ok); }
    }
  }

  lemma {:induction false} CommittedIsOnDisk(moves: seq<Move>, t: Id)
    ensures t in Played(START, moves).disk.turns <==> Committed(moves, t)
  {
    if moves != [] {
      var n := |moves| - 1;
      CommittedIsOnDisk(moves[..n], t);
      CommitMoves(Played(START, moves[..n]), moves[n], t);
      if Committed(moves[..n], t) {
        var k :| 0 <= k < n && CommitsTurn(Played(START, moves[..n][..k]), moves[..n][k], t);
        assert moves[..n][..k] == moves[..k] && moves[..n][k] == moves[k];
        assert CommitsTurn(Played(START, moves[..k]), moves[k], t);
      }
      if Committed(moves, t) && !CommitsTurn(Played(START, moves[..n]), moves[n], t) {
        var k :| 0 <= k < |moves| && CommitsTurn(Played(START, moves[..k]), moves[k], t);
        assert k < n && moves[..n][..k] == moves[..k] && moves[..n][k] == moves[k];
      }
    }
  }

  /** Under every interleaving, a turn is a row iff a PersistTurnClose of it went through, and then the rows of
      its records are all those the moves made while it was open, in order; and no other turn has any. */
  lemma InsideTurnsIsAtomic(moves: seq<Move>, t: Id)
    ensures var d := Played(START, moves).disk;
      && (t in d.turns <==> Committed(moves, t))
      && OfTurn(d.masterActions, t) == (if Committed(moves, t) then AcceptedIn(moves, t, true) else [])
      && OfTurn(d.cancelledActions, t) == (if Committed(moves, t) then AcceptedIn(moves, t, false) else [])
  {
    PlayedRows(moves);
    CommittedIsOnDisk(moves, t);
    AcceptedIsWhatWasMade(moves, t);
    assert RowsOf(Played(START, moves), t);
  }
}
