/** What becomes of a round's end under every interleaving, with the rounds that ended and those forgotten read
    off the moves. Granularity: lock sections. */
module PumpEnds {
  import opened Prelude
  import opened Store
  import opened RoomSpec
  import opened RoundInvariant
  import opened RoundRuns
  import opened Pumps
  import opened PumpRounds
  import opened PumpCommits

  // ---------------------------------------------------------------- what ended and what was forgotten

  /** r was the active round at some point of the run and is not at its end. */
  ghost predicate Ended(moves: seq<Move>, r: Id) {
    r != Played(START, moves).round && exists k :: 0 <= k <= |moves| && ActiveAt(moves, k, r)
  }

  ghost predicate ActiveAt(moves: seq<Move>, k: nat, r: Id) { k <= |moves| && Played(START, moves[..k]).round == r }

  /** Move m is the CloseSceneAndRound of a pump leaving r, got through, with no row of r to close. */
  predicate ForgetsIn(s: State, m: Move, r: Id) {
    && m.Advance? && m.ok && m.p in s.pumps
    && s.pumps[m.p].Leaving? && s.pumps[m.p].end.round.id == r && r !in s.disk.rounds
  }

  ghost predicate Forgotten(moves: seq<Move>, r: Id) {
    exists k :: 0 <= k < |moves| && ForgetsIn(Played(START, moves[..k]), moves[k], r)
  }

  lemma RoundMoves(s: State, m: Move)
    ensures var s' := Moved(s, m); s.ended <= s'.ended && (s'.round == s.round || s.round in s'.ended)
  {
    if m.Advance? { AdvanceMovesNoTurn(s, m.p, m.ok); }
  }

  lemma ForgetMoves(s: State, m: Move, r: Id)
    ensures r in Moved(s, m).forgotten <==> r in s.forgotten || ForgetsIn(s, m, r)
  {
    if m.Advance? && m.p in s.pumps {
      if s.pumps[m.p].TurnWriting? { WritingForgetsNothing(s, m.p, m.ok); }
      else if !s.pumps[m.p].Leaving? { OthersForgetNothing(s, m.p, m.ok); }
    }
  }

  lemma WritingForgetsNothing(s: State, p: nat, ok: bool)
    requires p in s.pumps && s.pumps[p].TurnWriting?
    ensures DoAdvance(s, p, ok).forgotten == s.forgotten
  {
  }

  lemma OthersForgetNothing(s: State, p: nat, ok: bool)
    requires p in s.pumps && !s.pumps[p].Leaving? && !s.pumps[p].TurnWriting?
    ensures DoAdvance(s, p, ok).forgotten == s.forgotten
  {
  }

  lemma {:induction false} EndedIsNoted(moves: seq<Move>, k: nat, r: Id)
    requires ActiveAt(moves, k, r)
    ensures r == Played(START, moves).round || r in Played(START, moves).ended
  {
    if k < |moves| {
      var init := moves[..|moves| - 1];
      assert init[..k] == moves[..k];
      EndedIsNoted(init, k, r);
      PlayedRoundMoves(moves);
    } else {
      assert moves[..k] == moves;
    }
  }

  lemma PlayedRoundMoves(moves: seq<Move>)
    requires moves != []
    ensures var s, s' := Played(START, moves[..|moves| - 1]), Played(START, moves);
      s.ended <= s'.ended && (s'.round == s.round || s.round in s'.ended)
  {
    RoundMoves(Played(START, moves[..|moves| - 1]), moves[|moves| - 1]);
  }

  lemma {:induction false} ForgottenIsNoted(moves: seq<Move>, r: Id)
    ensures r in Played(START, moves).forgotten ==> Forgotten(moves, r)
  {
    if moves != [] {
      var n := |moves| - 1;
      ForgottenIsNoted(moves[..n], r);
      ForgetMoves(Played(START, moves[..n]), moves[n], r);
      if Forgotten(moves[..n], r) {
        var k :| 0 <= k < n && ForgetsIn(Played(START, moves[..n][..k]), moves[..n][k], r);
        assert moves[..n][..k] == moves[..k] && moves[..n][k] == moves[k];
        assert ForgetsIn(Played(START, moves[..k]), moves[k], r);
      }
    }
  }

  /** Under every interleaving, the end of a round is never lost: until it is closed on disk it waits in
      the room or is in some pump's hands — unless change_scene closed the pair before it was a row. So
      an open row is the active round, or a round still to be closed, or one such. */
  lemma NoEndIsLost(moves: seq<Move>, r: Id)
    ensures var s := Played(START, moves);
      && (Ended(moves, r) ==> r in EndIds(s.ends) || ClosedOn(s.disk, r) || InHand(s, r) || Forgotten(moves, r))
      && (OpenRound(s.disk, r) ==> r == s.round || r in EndIds(s.ends) || InHand(s, r) || Forgotten(moves, r))
  {
    StartKeeps();
    PlayedKeeps(START, moves);
    ForgottenIsNoted(moves, r);
    if Ended(moves, r) {
      var k :| 0 <= k <= |moves| && ActiveAt(moves, k, r);
      EndedIsNoted(moves, k, r);
    }
  }

  // ---------------------------------------------------------------- what a write takes with it

  /** Whose move it is; a record is held by nobody's pump. */
  function Mover(m: Move): Option<nat> {
    match m
    case TurnOver(p, _) => Some(p)
    case RoundOver(p, _) => Some(p)
    case Snapshot(p) => Some(p)
    case ChangeScene(p, _) => Some(p)
    case Advance(p, _) => Some(p)
    case Hold(_, _) => None
    case HoldIfOpen(_, _, _) => None
  }

  ghost predicate NoneBy(others: seq<Move>, p: nat) {
    forall i :: 0 <= i < |others| ==> Mover(others[i]) != Some(p)
  }

  lemma AdvanceOthers(s: State, q: nat, ok: bool)
    ensures OthersStay(s, DoAdvance(s, q, ok), q)
  {
    if q in s.pumps {
      if s.pumps[q].TurnWriting? { WritingOthers(s, q, ok); }
      else if s.pumps[q].Leaving? || s.pumps[q].LeaveFailed? { LeavingOthers(s, q, ok); }
      else { ReadingOthers(s, q, ok); }
    }
  }

  lemma LeavingOthers(s: State, q: nat, ok: bool)
    requires q in s.pumps && (s.pumps[q].Leaving? || s.pumps[q].LeaveFailed?)
    ensures OthersStay(s, DoAdvance(s, q, ok), q)
  {
  }

  lemma ReadingOthers(s: State, q: nat, ok: bool)
    requires q in s.pumps && !s.pumps[q].TurnWriting? && !s.pumps[q].Leaving? && !s.pumps[q].LeaveFailed?
    ensures OthersStay(s, DoAdvance(s, q, ok), q)
  {
  }

  lemma WritingOthers(s: State, q: nat, ok: bool)
    requires q in s.pumps && s.pumps[q].TurnWriting?
    ensures OthersStay(s, DoAdvance(s, q, ok), q)
  {
  }

  lemma OthersMoves(s: State, m: Move, p: nat)
    requires Mover(m) != Some(p) && p in s.pumps
    ensures p in Moved(s, m).pumps && Moved(s, m).pumps[p] == s.pumps[p]
  {
    if m.Advance? { AdvanceOthers(s, m.p, m.ok); }
  }

  lemma {:induction false} OthersPlay(s: State, others: seq<Move>, p: nat)
    requires NoneBy(others, p) && p in s.pumps
    ensures p in Played(s, others).pumps && Played(s, others).pumps[p] == s.pumps[p]
  {
    if others != [] {
      var n := |others| - 1;
      OthersPlay(s, others[..n], p);
      OthersMoves(Played(s, others[..n]), others[n], p);
    }
  }

  /** About to read the room for a write. */
  predicate AboutToRead(q: Pump) { q.Reading? || q.Ending? || q.Draining? }

  /** What it reads: every end that waits then, beside its own. */
  lemma ReadsAll(s: State, p: nat, ok: bool, r: Id)
    requires PumpInv(s) && p in s.pumps && AboutToRead(s.pumps[p])
    requires r in EndIds(s.ends) || CarriedEnd(s.pumps[p]) == Some(r)
    ensures var q := DoAdvance(s, p, ok).pumps;
      p in q && Writing(q[p]) && r in Carried(q[p])
  {
    var q := s.pumps[p];
    assert GoodPump(s, q);
    if q.Ending? { EndsGrow(s.ends, q.end); }
  }

  lemma CarriedIsClosed(s: State, p: nat, r: Id)
    requires PumpInv(s) && p in s.pumps && Writing(s.pumps[p]) && r in Carried(s.pumps[p])
    ensures ClosedOn(DoAdvance(s, p, true).disk, r)
  {
    var q := s.pumps[p];
    assert GoodPump(s, q);
    match q {
      case Ensuring(sc, rd, ends) => RoundCloseWrites(s.disk, ends, sc, rd);
      case EndWriting(end, next, ends) => RoundCloseWrites(s.disk, ends, end.scene, next);
      case TurnWriting(data) => TurnTxWrites(s.disk, data);
    }
  }

  /** A write takes with it every end that waited when its pump read the room, and the one it has in hand:
      whatever the others do in between, once it commits each of those rounds is closed on disk. */
  lemma WaitingEndsAreWritten(moves: seq<Move>, p: nat, read: bool, others: seq<Move>, r: Id)
    requires NoneBy(others, p)
    ensures var s := Played(START, moves);
      p in s.pumps && AboutToRead(s.pumps[p]) && (r in EndIds(s.ends) || CarriedEnd(s.pumps[p]) == Some(r)) ==>
        ClosedOn(Played(START, moves + [Advance(p, read)] + others + [Advance(p, true)]).disk, r)
  {
    var s := Played(START, moves);
    StartKeeps();
    PlayedKeeps(START, moves);
    if p in s.pumps && AboutToRead(s.pumps[p]) && (r in EndIds(s.ends) || CarriedEnd(s.pumps[p]) == Some(r)) {
      var early := moves + [Advance(p, read)];
      ReadsAll(s, p, read, r);
      assert early[..|moves|] == moves;
      assert Played(START, early) == DoAdvance(s, p, read);
      OthersPlay(Played(START, early), others, p);
      PlayedOn(START, early, others);
      PlayedKeeps(START, early + others);
      assert (early + others + [Advance(p, true)])[..|early + others|] == early + others;
      CarriedIsClosed(Played(START, early + others), p, r);
    }
  }

  /** A snapshot is for writing: whatever the others do in between, once its pump has written it the round that
      was active then is a row; and once that pump is back, the session knows, if that round is still active. */
  lemma SnapshotBecomesRow(moves: seq<Move>, p: nat, a: seq<Move>, read: bool, b: seq<Move>, c: seq<Move>, told: bool)
    requires p !in Played(START, moves).pumps && NoneBy(a, p) && NoneBy(b, p) && NoneBy(c, p)
    ensures var r := Played(START, moves).round;
      var written := moves + [Snapshot(p)] + a + [Advance(p, read)] + b + [Advance(p, true)];
      var s := Played(START, written + c + [Advance(p, told)]);
      && r in Played(START, written).disk.rounds
      && (s.round == r ==> s.roundPersisted && s.scenePersisted)
  {
    var s0 := Played(START, moves);
    var m1 := moves + [Snapshot(p)];
    var m2 := m1 + a + [Advance(p, read)];
    LastMove(moves, Snapshot(p));
    OthersThen(m1, a, p);
    LastMove(m1 + a, Advance(p, read));
    OthersThen(m2, b, p);
    WrittenIsTold(m2 + b, p, c, told);
  }

  lemma WrittenIsTold(moves: seq<Move>, p: nat, c: seq<Move>, told: bool)
    requires NoneBy(c, p) && p in Played(START, moves).pumps && Played(START, moves).pumps[p].Ensuring?
    ensures var r := Played(START, moves).pumps[p].rd.id;
      var written := moves + [Advance(p, true)];
      var s := Played(START, written + c + [Advance(p, told)]);
      r in Played(START, written).disk.rounds && (s.round == r ==> s.roundPersisted && s.scenePersisted)
  {
    var written := moves + [Advance(p, true)];
    StartKeeps();
    LastMove(moves, Advance(p, true));
    PlayedKeeps(START, moves);
    EnsuredIsRow(Played(START, moves), p);
    OthersThen(written, c, p);
    LastMove(written + c, Advance(p, told));
    WrittenTells(Played(START, written + c), p, told);
  }

  lemma WrittenTells(s: State, p: nat, ok: bool)
    requires p in s.pumps && s.pumps[p].Written?
    ensures var s' := DoAdvance(s, p, ok); s'.round == s.pumps[p].rd.id ==> s'.roundPersisted && s'.scenePersisted
  {
  }

  lemma EnsuredIsRow(s: State, p: nat)
    requires PumpInv(s) && p in s.pumps && s.pumps[p].Ensuring?
    ensures var s' := DoAdvance(s, p, true);
      s.pumps[p].rd.id in s'.disk.rounds && s'.pumps == s.pumps[p := Written(s.pumps[p].rd, s.pumps[p].ends)]
  {
  }

  lemma LastMove(moves: seq<Move>, m: Move)
    ensures Played(START, moves + [m]) == Moved(Played(START, moves), m)
  {
    assert (moves + [m])[..|moves|] == moves;
  }

  lemma OthersThen(moves: seq<Move>, others: seq<Move>, p: nat)
    requires NoneBy(others, p) && p in Played(START, moves).pumps
    ensures var s := Played(START, moves + others); p in s.pumps && s.pumps[p] == Played(START, moves).pumps[p]
  {
    PlayedOn(START, moves, others);
    OthersPlay(Played(START, moves), others, p);
  }
}
