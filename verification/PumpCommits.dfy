/** When an interleaving breaks the open-round rule: the exact condition, at the commit that does it.
    Granularity: lock sections. */
module PumpCommits {
  import opened Prelude
  import opened Store
  import opened RoomSpec
  import opened RoundInvariant
  import opened RoundRuns
  import opened Pumps
  import opened PumpRounds

  /** A pump whose next step is a transaction on a pair: an ensure, a round's end, a turn's close. */
  predicate Writing(q: Pump) { q.Ensuring? || q.EndWriting? || q.TurnWriting? }

  /** The pair that transaction leaves active, as its pump read it. */
  function PairOf(q: Pump): RoundSnap
    requires Writing(q)
  {
    match q
    case Ensuring(_, rd, _) => rd
    case EndWriting(_, next, _) => next
    case TurnWriting(data) => if data.next.Some? then data.next.value else data.round
  }

  /** The rounds it closes: the ends read before the write, and the round that ends with its turn. */
  function Carried(q: Pump): set<Id>
    requires Writing(q)
  {
    match q
    case Ensuring(_, _, ends) => EndIds(ends)
    case EndWriting(_, _, ends) => EndIds(ends)
    case TurnWriting(data) => EndIds(data.ends) + if data.next.Some? then {data.round.id} else {}
  }

  ghost predicate AtMostOneOpen(d: Disk) { forall r, q :: OpenRound(d, r) && OpenRound(d, q) ==> r == q }

  lemma PairOpens(d: Disk, ends: seq<RoundEnd>, sc: SceneSnap, rd: RoundSnap, r: Id)
    requires ValidEnds(ends) && rd.finished.None?
    ensures OpenRound(RoundClose(d, ends, sc, rd), r) <==>
      r !in EndIds(ends) && (OpenRound(d, r) || (r == rd.id && !ClosedOn(d, r)))
  {
    WriteEndsRows(d, ends);
  }

  lemma TurnOpens(d: Disk, data: TurnClose, r: Id)
    requires ValidEnds(data.ends)
    requires data.next.Some? ==> data.next.value.finished.None? && data.round.finished.Some?
    requires data.next.None? ==> data.round.finished.None?
    ensures OpenRound(TurnTx(d, data), r) <==>
      r !in Carried(TurnWriting(data)) && (OpenRound(d, r) || (r == PairOf(TurnWriting(data)).id && !ClosedOn(d, r)))
  {
    if data.next.Some? {
      var all := data.ends + [RoundEnd(data.scene, data.round)];
      EndsGrow(data.ends, RoundEnd(data.scene, data.round));
      assert all[..|data.ends|] == data.ends;
      PairOpens(d, all, data.scene, data.next.value, r);
    } else {
      PairOpens(d, data.ends, data.scene, data.round, r);
    }
  }

  /** The open rows after a commit, exactly: those it does not close, and its own pair unless it is closed
      already. */
  lemma CommitOpens(s: State, p: nat, r: Id)
    requires PumpInv(s) && p in s.pumps && Writing(s.pumps[p])
    ensures var q := s.pumps[p];
      OpenRound(DoAdvance(s, p, true).disk, r) <==>
      r !in Carried(q) && (OpenRound(s.disk, r) || (r == PairOf(q).id && !ClosedOn(s.disk, r)))
  {
    var q := s.pumps[p];
    assert GoodPump(s, q);
    match q {
      case Ensuring(sc, rd, ends) => PairOpens(s.disk, ends, sc, rd, r);
      case EndWriting(end, next, ends) => PairOpens(s.disk, ends, end.scene, next, r);
      case TurnWriting(data) => TurnOpens(s.disk, data, r);
    }
  }

  /** The one step that breaks the rule: a commit that writes its pair open beside an open row it neither
      names among its ends nor is the pair of. What it carries was read before, under the lock. */
  ghost predicate Uncarried(s: State, m: Move) {
    && m.Advance? && m.ok && m.p in s.pumps && Writing(s.pumps[m.p])
    && PairOf(s.pumps[m.p]).id !in Carried(s.pumps[m.p]) && !ClosedOn(s.disk, PairOf(s.pumps[m.p]).id)
    && exists o :: OpenRound(s.disk, o) && o !in Carried(s.pumps[m.p]) && o != PairOf(s.pumps[m.p]).id
  }

  lemma CommitBreaksIff(s: State, p: nat)
    requires PumpInv(s) && p in s.pumps && Writing(s.pumps[p]) && AtMostOneOpen(s.disk)
    ensures AtMostOneOpen(DoAdvance(s, p, true).disk) <==> !Uncarried(s, Advance(p, true))
  {
    var q, d := s.pumps[p], DoAdvance(s, p, true).disk;
    forall r ensures OpenRound(d, r) <==>
      (r !in Carried(q) && (OpenRound(s.disk, r) || (r == PairOf(q).id && !ClosedOn(s.disk, r))))
    {
      CommitOpens(s, p, r);
    }
    if Uncarried(s, Advance(p, true)) {
      var o :| OpenRound(s.disk, o) && o !in Carried(q) && o != PairOf(q).id;
      assert OpenRound(d, o) && OpenRound(d, PairOf(q).id);
    }
  }

  lemma AdvanceKeepsDisk(s: State, p: nat, ok: bool)
    requires p in s.pumps && (ok ==> !Writing(s.pumps[p]) && !s.pumps[p].Leaving?)
    ensures DoAdvance(s, p, ok).disk == s.disk
  {
  }

  lemma LeavingOpensNothing(s: State, p: nat, r: Id)
    requires p in s.pumps && s.pumps[p].Leaving? && OpenRound(DoAdvance(s, p, true).disk, r)
    ensures OpenRound(s.disk, r)
  {
  }

  /** No other step opens a row. */
  lemma OthersOpenNothing(s: State, m: Move, r: Id)
    requires !(m.Advance? && m.ok && m.p in s.pumps && Writing(s.pumps[m.p]))
    requires OpenRound(Moved(s, m).disk, r)
    ensures OpenRound(s.disk, r)
  {
    if m.Advance? && m.p in s.pumps {
      if m.ok && s.pumps[m.p].Leaving? { LeavingOpensNothing(s, m.p, r); } else { AdvanceKeepsDisk(s, m.p, m.ok); }
    } else {
      assert Moved(s, m).disk == s.disk;
    }
  }

  lemma StepBreaksIff(s: State, m: Move)
    requires PumpInv(s) && AtMostOneOpen(s.disk)
    ensures AtMostOneOpen(Moved(s, m).disk) <==> !Uncarried(s, m)
  {
    if m.Advance? && m.ok && m.p in s.pumps && Writing(s.pumps[m.p]) {
      CommitBreaksIff(s, m.p);
    } else {
      forall r | OpenRound(Moved(s, m).disk, r) ensures OpenRound(s.disk, r) { OthersOpenNothing(s, m, r); }
    }
  }

  /** At no point of the run was the next move such a step. */
  ghost predicate NoneUncarried(moves: seq<Move>) {
    moves != [] ==>
      NoneUncarried(moves[..|moves| - 1]) && !Uncarried(Played(START, moves[..|moves| - 1]), moves[|moves| - 1])
  }

  /** At every point of the run at most one round is open on disk. */
  ghost predicate AlwaysOneOpen(moves: seq<Move>) {
    AtMostOneOpen(Played(START, moves).disk) && (moves != [] ==> AlwaysOneOpen(moves[..|moves| - 1]))
  }

  /** Over every interleaving: the disk never holds two open rounds iff no commit of it was such a step. */
  lemma {:induction false} RuleHoldsIff(moves: seq<Move>)
    ensures AlwaysOneOpen(moves) <==> NoneUncarried(moves)
  {
    if moves != [] {
      var n := |moves| - 1;
      RuleHoldsIff(moves[..n]);
      StartKeeps();
      PlayedKeeps(START, moves[..n]);
      if AlwaysOneOpen(moves[..n]) { StepBreaksIff(Played(START, moves[..n]), moves[n]); }
    }
  }
}
