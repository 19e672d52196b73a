/** What no interleaving of pumps can break about rounds: the persisted flags never lie, and the end of
    a round is never lost. Granularity: lock sections. */
module PumpRounds {
  import opened Prelude
  import opened Store
  import opened RoomSpec
  import opened RoundInvariant
  import opened RoundRuns
  import opened Pumps

  ghost predicate ClosedOn(d: Disk, r: Id) { r in d.rounds && d.rounds[r].finished.Some? }

  ghost predicate GoodEnds(ended: set<Id>, ends: seq<RoundEnd>) {
    ValidEnds(ends) && EndIds(ends) <= ended
  }

  /** A snapshot of a pair that is or was the active one, taken while it was. */
  predicate PairIn(s: State, sc: SceneSnap, rd: RoundSnap) {
    rd.finished.None? && (rd.id == s.round || rd.id in s.ended) && (rd.id == s.round ==> sc.id == s.scene)
  }

  predicate HasEnded(s: State, rd: RoundSnap) { rd.finished.Some? && rd.id in s.ended }

  /** What a pump's own variables promise, whatever the others did meanwhile. */
  ghost predicate GoodPump(s: State, q: Pump) {
    match q
    case Reading(sc, rd) => PairIn(s, sc, rd)
    case Ensuring(sc, rd, ends) => PairIn(s, sc, rd) && GoodEnds(s.ended, ends)
    case Written(rd, ends) =>
      && rd.id in s.disk.rounds && (rd.id == s.round ==> s.scene in s.disk.scenes)
      && (forall r :: r in EndIds(ends) ==> ClosedOn(s.disk, r))
    case RoundEnding(closed) => HasEnded(s, closed)
    case Ending(end, next) => HasEnded(s, end.round) && PairIn(s, end.scene, next)
    case EndWriting(end, next, ends) =>
      HasEnded(s, end.round) && PairIn(s, end.scene, next) && GoodEnds(s.ended, ends) && end.round.id in EndIds(ends)
    case EndFailed(end) => HasEnded(s, end.round)
    case Draining(_, closedIn) => closedIn.Some? ==> HasEnded(s, closedIn.value)
    case TurnWriting(data) =>
      && GoodEnds(s.ended, data.ends)
      && (if data.next.Some? then PairIn(s, data.scene, data.next.value) && HasEnded(s, data.round)
            else PairIn(s, data.scene, data.round))
    case Leaving(end, sc, rd) => HasEnded(s, end.round) && PairIn(s, sc, rd)
    case LeaveFailed(end, sc, rd) => HasEnded(s, end.round) && PairIn(s, sc, rd)
  }

  /** The round whose end a pump has in hand. */
  function CarriedEnd(q: Pump): Option<Id> {
    match q
    case RoundEnding(closed) => Some(closed.id)
    case Ending(end, _) => Some(end.round.id)
    case EndWriting(end, _, _) => Some(end.round.id)
    case EndFailed(end) => Some(end.round.id)
    case Draining(_, closedIn) => if closedIn.Some? then Some(closedIn.value.id) else None
    case TurnWriting(data) => if data.next.Some? then Some(data.round.id) else None
    case Leaving(end, _, _) => Some(end.round.id)
    case LeaveFailed(end, _, _) => Some(end.round.id)
    case Reading(_, _) => None
    case Ensuring(_, _, _) => None
    case Written(_, _) => None
  }

  ghost predicate InHand(s: State, r: Id) {
    exists p :: p in s.pumps && CarriedEnd(s.pumps[p]) == Some(r)
  }

  /** A round that ended is waiting, closed on disk, in some pump's hands, or was forgotten by a
      CloseSceneAndRound that found no row. */
  ghost predicate AccountedFor(s: State, r: Id) {
    r in EndIds(s.ends) || ClosedOn(s.disk, r) || InHand(s, r) || r in s.forgotten
  }

  ghost predicate RoundsSound(s: State) {
    && s.scene < s.nextId && s.round < s.nextId && s.round !in s.ended && (forall r :: r in s.ended ==> r < s.nextId)
    && (s.roundPersisted ==> s.round in s.disk.rounds)
    && (s.scenePersisted ==> s.scene in s.disk.scenes)
    && GoodEnds(s.ended, s.ends)
    && (forall r :: r in s.disk.rounds ==> r == s.round || r in s.ended)
  }

  ghost predicate PumpInv(s: State) {
    && RoundsSound(s)
    && (forall p :: p in s.pumps ==> GoodPump(s, s.pumps[p]))
    && (forall r :: r in s.ended ==> AccountedFor(s, r))
  }

  // ---------------------------------------------------------------- what one step may do

  /** Rows stay, finishes stay, and the active pair moves only to a fresh one, the old round ending. */
  ghost predicate Evolves(s: State, s': State) {
    && s.ended <= s'.ended && s.forgotten <= s'.forgotten && s.nextId <= s'.nextId
    && (forall r :: r in s.disk.rounds ==> r in s'.disk.rounds)
    && (forall c :: c in s.disk.scenes ==> c in s'.disk.scenes)
    && (forall r :: ClosedOn(s.disk, r) ==> ClosedOn(s'.disk, r))
    && ((s'.round == s.round && s'.scene == s.scene) || (s.nextId <= s'.round && s.round in s'.ended))
  }

  lemma GoodPumpEvolves(s: State, s': State, q: Pump)
    requires RoundsSound(s) && Evolves(s, s') && GoodPump(s, q)
    requires forall r :: r in s.disk.rounds ==> r < s.nextId
    ensures GoodPump(s', q)
  {
  }

  /** The part of the proof every step shares: only pump p acts, and what it had in hand is still
      accounted for. */
  lemma StepKeeps(s: State, s': State, p: nat)
    requires PumpInv(s) && Evolves(s, s') && OthersStay(s, s', p) && RoundsSound(s')
    requires p in s'.pumps ==> GoodPump(s', s'.pumps[p])
    requires forall r :: r in EndIds(s.ends) ==> r in EndIds(s'.ends) || ClosedOn(s'.disk, r)
    requires p in s.pumps && CarriedEnd(s.pumps[p]).Some? ==> AccountedFor(s', CarriedEnd(s.pumps[p]).value)
    requires forall r :: r in s'.ended && r !in s.ended ==> AccountedFor(s', r)
    ensures PumpInv(s')
  {
    forall q | q in s'.pumps ensures GoodPump(s', s'.pumps[q]) {
      if q != p { GoodPumpEvolves(s, s', s.pumps[q]); }
    }
    forall r | r in s'.ended ensures AccountedFor(s', r) {
      if r in s.ended {
        assert AccountedFor(s, r);
        if InHand(s, r) {
          var q :| q in s.pumps && CarriedEnd(s.pumps[q]) == Some(r);
          if q != p { assert q in s'.pumps && s'.pumps[q] == s.pumps[q]; }
        }
      }
    }
  }

  /** What one transaction of ends and a pair writes, as far as this invariant asks. */
  ghost predicate PairWritten(d: Disk, ends: seq<RoundEnd>, sc: SceneSnap, rd: RoundSnap, d': Disk) {
    && d'.rounds.Keys == d.rounds.Keys + EndIds(ends) + {rd.id}
    && d.scenes.Keys <= d'.scenes.Keys && sc.id in d'.scenes
    && (forall r :: ClosedOn(d, r) ==> ClosedOn(d', r))
    && (forall r :: r in EndIds(ends) ==> ClosedOn(d', r))
    && (rd.finished.Some? ==> ClosedOn(d', rd.id))
  }

  lemma RoundCloseWrites(d: Disk, ends: seq<RoundEnd>, sc: SceneSnap, rd: RoundSnap)
    requires ValidEnds(ends)
    ensures PairWritten(d, ends, sc, rd, RoundClose(d, ends, sc, rd))
  {
    WriteEndsRows(d, ends);
    WriteEndsScenes(d, ends);
  }

  lemma WithoutIds(ends: seq<RoundEnd>, done: set<Id>)
    ensures EndIds(Without(ends, done)) == EndIds(ends) - done
    ensures ValidEnds(ends) ==> ValidEnds(Without(ends, done))
  {
    if ends != [] {
      var init, last := ends[..|ends| - 1], ends[|ends| - 1];
      WithoutIds(init, done);
      EndsGrow(init, last);
      assert ends == init + [last];
      if last.round.id !in done { EndsGrow(Without(init, done), last); }
    }
  }

  lemma MarkIds(ends: seq<RoundEnd>, end: RoundEnd)
    ensures EndIds(MarkEnd(ends, end)) == EndIds(ends) + {end.round.id}
    ensures ValidEnds(ends) && end.round.finished.Some? ==> ValidEnds(MarkEnd(ends, end))
  {
    EndsGrow(ends, end);
  }

  // ---------------------------------------------------------------- commands

  /** Only the turn and the records move: nothing this invariant reads, but pump p may start one. */
  ghost predicate RoundsUntouched(s: State, s': State) {
    && s'.scene == s.scene && s'.round == s.round && s'.scenePersisted == s.scenePersisted
    && s'.roundPersisted == s.roundPersisted
    && s'.disk == s.disk && s'.ends == s.ends && s'.ended == s.ended && s'.forgotten == s.forgotten
    && s.nextId <= s'.nextId
  }

  lemma UntouchedKeeps(s: State, s': State, p: nat)
    requires PumpInv(s) && RoundsUntouched(s, s') && OthersStay(s, s', p)
    requires p in s'.pumps ==> GoodPump(s', s'.pumps[p])
    requires p in s.pumps && CarriedEnd(s.pumps[p]).Some? ==>
      p in s'.pumps && CarriedEnd(s'.pumps[p]) == CarriedEnd(s.pumps[p])
    ensures PumpInv(s')
  {
  }

  lemma TurnOverKeeps(s: State, p: nat, opens: bool)
    requires PumpInv(s) && p !in s.pumps
    ensures PumpInv(DoTurnOver(s, p, opens))
  {
    var s' := DoTurnOver(s, p, opens);
    assert RoundsUntouched(s, s') && OthersStay(s, s', p);
    assert p in s'.pumps ==> s'.pumps[p] == Draining(s.current.value, None);
    UntouchedKeeps(s, s', p);
  }

  lemma RoundOverKeeps(s: State, p: nat, at: Time)
    requires PumpInv(s) && p !in s.pumps
    ensures PumpInv(DoRoundOver(s, p, at))
  {
    var s' := DoRoundOver(s, p, at);
    assert CarriedEnd(s'.pumps[p]) == Some(s.round);
    assert InHand(s', s.round);
    StepKeeps(s, s', p);
  }

  lemma HoldKeeps(s: State, rec: Id, master: bool, p: nat)
    requires PumpInv(s)
    ensures PumpInv(DoHold(s, rec, master))
  {
    var s' := DoHold(s, rec, master);
    if p in s.pumps { assert GoodPump(s, s.pumps[p]); GoodPumpEvolves(s, s', s.pumps[p]); }
    UntouchedKeeps(s, s', p);
  }

  lemma ChangeSceneKeeps(s: State, p: nat, at: Time)
    requires PumpInv(s) && p !in s.pumps
    ensures PumpInv(DoLeaveScene(s, p, at))
  {
    if s.current.None? {
      var s' := DoLeaveScene(s, p, at);
      var end := RoundEnd(SceneSnap(s.scene, Some(at)), RoundSnap(s.round, Free, Some(at)));
      MarkIds(s.ends, end);
      if s.scenePersisted {
        assert CarriedEnd(s'.pumps[p]) == Some(s.round);
        assert InHand(s', s.round);
      }
      StepKeeps(s, s', p);
    }
  }

  // ---------------------------------------------------------------- a pump's next step

  /** A transaction that committed: the rounds it made rows had ended or are active. */
  lemma CommitEvolves(s: State, s': State, p: nat, ends: seq<RoundEnd>, rounds: set<Id>)
    requires RoundsSound(s) && OthersStay(s, s', p)
    requires s' == s.(disk := s'.disk, pumps := s'.pumps, attempts := s'.attempts)
    requires s'.disk.rounds.Keys == s.disk.rounds.Keys + EndIds(ends) + rounds
      && s.disk.scenes.Keys <= s'.disk.scenes.Keys
    requires forall r :: ClosedOn(s.disk, r) ==> ClosedOn(s'.disk, r)
    requires EndIds(ends) <= s.ended && forall r :: r in rounds ==> r == s.round || r in s.ended
    ensures Evolves(s, s') && RoundsSound(s')
  {
  }

  lemma EnsureWriteKeeps(s: State, p: nat, ok: bool)
    requires PumpInv(s) && p in s.pumps && s.pumps[p].Ensuring?
    ensures PumpInv(DoAdvance(s, p, ok))
  {
    var q, s' := s.pumps[p], DoAdvance(s, p, ok);
    assert GoodPump(s, q);
    if ok {
      RoundCloseWrites(s.disk, q.ends, q.sc, q.rd);
      CommitEvolves(s, s', p, q.ends, {q.rd.id});
      StepKeeps(s, s', p);
    } else {
      UntouchedKeeps(s, s', p);
    }
  }

  lemma WrittenKeeps(s: State, p: nat)
    requires PumpInv(s) && p in s.pumps && s.pumps[p].Written?
    ensures PumpInv(DoAdvance(s, p, true)) && DoAdvance(s, p, false) == DoAdvance(s, p, true)
  {
    var q := s.pumps[p];
    assert GoodPump(s, q);
    WithoutIds(s.ends, EndIds(q.ends));
    StepKeeps(s, DoAdvance(s, p, true), p);
  }

  lemma EndWriteKeeps(s: State, p: nat, ok: bool)
    requires PumpInv(s) && p in s.pumps && s.pumps[p].EndWriting?
    ensures PumpInv(DoAdvance(s, p, ok))
  {
    var q, s' := s.pumps[p], DoAdvance(s, p, ok);
    assert GoodPump(s, q);
    if ok {
      RoundCloseWrites(s.disk, q.ends, q.end.scene, q.next);
      CommitEvolves(s, s', p, q.ends, {q.next.id});
      StepKeeps(s, s', p);
    } else {
      UntouchedKeeps(s, s', p);
    }
  }

  lemma MarkKeeps(s: State, p: nat)
    requires PumpInv(s) && p in s.pumps && (s.pumps[p].EndFailed? || s.pumps[p].LeaveFailed?)
    ensures PumpInv(DoAdvance(s, p, true)) && DoAdvance(s, p, false) == DoAdvance(s, p, true)
  {
    var q := s.pumps[p];
    assert GoodPump(s, q);
    MarkIds(s.ends, q.end);
    StepKeeps(s, DoAdvance(s, p, true), p);
  }

  /** The steps that only read the room into the pump's variables. */
  lemma ReadKeeps(s: State, p: nat)
    requires PumpInv(s) && p in s.pumps
    requires s.pumps[p].Reading? || s.pumps[p].RoundEnding? || s.pumps[p].Ending? || s.pumps[p].Draining?
    ensures PumpInv(DoAdvance(s, p, true)) && DoAdvance(s, p, false) == DoAdvance(s, p, true)
  {
    var q := s.pumps[p];
    assert GoodPump(s, q);
    var s' := DoAdvance(s, p, true);
    if q.Ending? { EndsGrow(s.ends, q.end); }
    if CarriedEnd(q).Some? {
      assert CarriedEnd(s'.pumps[p]) == CarriedEnd(q);
      assert InHand(s', CarriedEnd(q).value);
    }
    StepKeeps(s, s', p);
  }

  lemma TurnTxWrites(d: Disk, t: TurnClose)
    requires ValidEnds(t.ends)
    ensures var d' := TurnTx(d, t);
      var rd := if t.next.Some? then t.next.value else t.round;
      && d'.rounds.Keys == d.rounds.Keys + EndIds(t.ends) + {t.round.id, rd.id}
      && d.scenes.Keys <= d'.scenes.Keys && t.scene.id in d'.scenes
      && (forall r :: ClosedOn(d, r) ==> ClosedOn(d', r))
      && (forall r :: r in EndIds(t.ends) ==> ClosedOn(d', r))
      && (t.round.finished.Some? ==> ClosedOn(d', t.round.id))
  {
    RoundCloseWrites(d, t.ends, t.scene, t.round);
  }

  lemma TurnWrittenKeeps(s: State, p: nat)
    requires PumpInv(s) && p in s.pumps && s.pumps[p].TurnWriting?
    ensures PumpInv(DoAdvance(s, p, true))
  {
    var data, s' := s.pumps[p].data, DoAdvance(s, p, true);
    var rd := if data.next.Some? then data.next.value else data.round;
    assert GoodPump(s, s.pumps[p]);
    TurnTxWrites(s.disk, data);
    CommitEvolves(s, s', p, data.ends, {data.round.id, rd.id});
    StepKeeps(s, s', p);
  }

  lemma TurnWriteKeeps(s: State, p: nat, ok: bool)
    requires PumpInv(s) && p in s.pumps && s.pumps[p].TurnWriting?
    ensures PumpInv(DoAdvance(s, p, ok))
  {
    if ok {
      TurnWrittenKeeps(s, p);
    } else {
      assert GoodPump(s, s.pumps[p]);
      UntouchedKeeps(s, DoAdvance(s, p, false), p);
    }
  }

  lemma ClosePairWrites(d: Disk, scene: Id, round: Id, at: Time)
    ensures var d' := ClosePair(d, scene, round, at);
      && d'.rounds.Keys == d.rounds.Keys && d'.scenes.Keys == d.scenes.Keys
      && (forall r :: ClosedOn(d, r) ==> ClosedOn(d', r))
      && (round in d.rounds ==> ClosedOn(d', round))
  {
  }

  lemma LeftKeeps(s: State, p: nat)
    requires PumpInv(s) && p in s.pumps && s.pumps[p].Leaving?
    ensures PumpInv(DoAdvance(s, p, true))
  {
    var q, s' := s.pumps[p], DoAdvance(s, p, true);
    assert GoodPump(s, q);
    ClosePairWrites(s.disk, q.end.scene.id, q.end.round.id, q.end.round.finished.value);
    assert AccountedFor(s', q.end.round.id);
    StepKeeps(s, s', p);
  }

  lemma LeaveKeeps(s: State, p: nat, ok: bool)
    requires PumpInv(s) && p in s.pumps && s.pumps[p].Leaving?
    ensures PumpInv(DoAdvance(s, p, ok))
  {
    if ok {
      LeftKeeps(s, p);
    } else {
      assert GoodPump(s, s.pumps[p]);
      UntouchedKeeps(s, DoAdvance(s, p, false), p);
    }
  }

  lemma AdvanceKeeps(s: State, p: nat, ok: bool)
    requires PumpInv(s)
    ensures PumpInv(DoAdvance(s, p, ok))
  {
    if p in s.pumps {
      match s.pumps[p] {
        case Reading(_, _) => ReadKeeps(s, p);
        case Ensuring(_, _, _) => EnsureWriteKeeps(s, p, ok);
        case Written(_, _) => WrittenKeeps(s, p);
        case RoundEnding(_) => ReadKeeps(s, p);
        case Ending(_, _) => ReadKeeps(s, p);
        case EndWriting(_, _, _) => EndWriteKeeps(s, p, ok);
        case EndFailed(_) => MarkKeeps(s, p);
        case Draining(_, _) => ReadKeeps(s, p);
        case TurnWriting(_) => TurnWriteKeeps(s, p, ok);
        case Leaving(_, _, _) => LeaveKeeps(s, p, ok);
        case LeaveFailed(_, _, _) => MarkKeeps(s, p);
      }
    }
  }

  lemma SnapshotKeeps(s: State, p: nat)
    requires PumpInv(s) && p !in s.pumps
    ensures PumpInv(Started(s, p, Reading(s.SceneNow(), s.RoundNow())))
  {
    StepKeeps(s, Started(s, p, Reading(s.SceneNow(), s.RoundNow())), p);
  }

  lemma MovedKeeps(s: State, m: Move)
    requires PumpInv(s)
    ensures PumpInv(Moved(s, m))
  {
    match m {
      case TurnOver(p, opens) => if p !in s.pumps { TurnOverKeeps(s, p, opens); }
      case RoundOver(p, at) => if p !in s.pumps { RoundOverKeeps(s, p, at); }
      case Hold(rec, master) => HoldKeeps(s, rec, master, 0);
      case HoldIfOpen(_, rec, master) => HoldKeeps(s, rec, master, 0);
      case Snapshot(p) => if p !in s.pumps { SnapshotKeeps(s, p); }
      case ChangeScene(p, at) => if p !in s.pumps { ChangeSceneKeeps(s, p, at); }
      case Advance(p, ok) => AdvanceKeeps(s, p, ok);
    }
  }

  lemma {:induction false} PlayedKeeps(s: State, moves: seq<Move>)
    requires PumpInv(s)
    ensures PumpInv(Played(s, moves))
  {
    if moves != [] {
      PlayedKeeps(s, moves[..|moves| - 1]);
      MovedKeeps(Played(s, moves[..|moves| - 1]), moves[|moves| - 1]);
    }
  }

  // ---------------------------------------------------------------- the theorems

  lemma StartKeeps()
    ensures PumpInv(START)
  {
  }

  /** Under every interleaving, IsRoundPersisted and IsScenePersisted mean what they say. */
  lemma TheFlagsNeverLie(moves: seq<Move>)
    ensures var s := Played(START, moves);
      (s.roundPersisted ==> s.round in s.disk.rounds) && (s.scenePersisted ==> s.scene in s.disk.scenes)
  {
    StartKeeps();
    PlayedKeeps(START, moves);
  }

  /** An end marked while a write was in flight survives that write's forget: what the forget drops is
      closed on disk. */
  lemma ForgetDropsOnlyTheWritten(moves: seq<Move>, p: nat, r: Id)
    ensures var s := Played(START, moves);
      p in s.pumps && s.pumps[p].Written? && r in EndIds(s.ends) ==>
        r in EndIds(DoAdvance(s, p, true).ends) || (r in EndIds(s.pumps[p].ends) && ClosedOn(s.disk, r))
  {
    var s := Played(START, moves);
    StartKeeps();
    PlayedKeeps(START, moves);
    if p in s.pumps && s.pumps[p].Written? {
      assert GoodPump(s, s.pumps[p]);
      WithoutIds(s.ends, EndIds(s.pumps[p].ends));
    }
  }
}
