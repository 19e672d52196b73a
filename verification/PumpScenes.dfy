/** Under every interleaving the active scene is open on disk: only a scene the session has left is ever
    finished. Granularity: lock sections. */
module PumpScenes {
  import opened Prelude
  import opened Store
  import opened RoomSpec
  import opened RoundInvariant
  import opened LiveView
  import opened Pumps

  function ScenesOf(ends: seq<RoundEnd>): set<SceneSnap> { set i | 0 <= i < |ends| :: ends[i].scene }

  /** Every scene a pump may write, as it has it. */
  function Writes(q: Pump): set<SceneSnap> {
    match q
    case Reading(sc, _) => {sc}
    case Ensuring(sc, _, ends) => {sc} + ScenesOf(ends)
    case Written(_, _) => {}
    case RoundEnding(_) => {}
    case Ending(end, _) => {end.scene}
    case EndWriting(end, _, ends) => {end.scene} + ScenesOf(ends)
    case EndFailed(end) => {end.scene}
    case Draining(_, _) => {}
    case TurnWriting(data) => {data.scene} + ScenesOf(data.ends)
    case Leaving(end, sc, _) => {end.scene, sc}
    case LeaveFailed(end, sc, _) => {end.scene, sc}
  }

  /** Known scenes, finished only if left. */
  ghost predicate Left(s: State, scenes: set<SceneSnap>) {
    forall sc :: sc in scenes ==> sc.id < s.nextId && (sc.finished.Some? ==> sc.id != s.scene)
  }

  ghost predicate SceneInv(s: State) {
    && s.scene < s.nextId
    && Left(s, ScenesOf(s.ends))
    && (forall p :: p in s.pumps ==> Left(s, Writes(s.pumps[p])))
    && (forall p :: p in s.pumps && s.pumps[p].Leaving? ==> s.pumps[p].end.scene.finished.Some?)
    && (forall c :: c in s.disk.scenes ==> c < s.nextId && (s.disk.scenes[c].Some? ==> c != s.scene))
  }

  /** The scene stays, or a fresh one is active. */
  predicate SceneMoves(s: State, s': State) {
    s.nextId <= s'.nextId && (s'.scene == s.scene || s.nextId <= s'.scene < s'.nextId)
  }

  lemma StillLeft(s: State, s': State, scenes: set<SceneSnap>)
    requires SceneMoves(s, s') && Left(s, scenes)
    ensures Left(s', scenes)
  {
  }

  /** The step of one pump: what it leaves in the room, in itself and on disk is still of left scenes only. */
  lemma StepKeeps(s: State, s': State, p: nat)
    requires SceneInv(s) && SceneMoves(s, s') && OthersStay(s, s', p)
    requires Left(s', ScenesOf(s'.ends))
    requires p in s'.pumps ==>
      Left(s', Writes(s'.pumps[p])) && (s'.pumps[p].Leaving? ==> s'.pumps[p].end.scene.finished.Some?)
    requires forall c :: c in s'.disk.scenes ==> c < s'.nextId && (s'.disk.scenes[c].Some? ==> c != s'.scene)
    ensures SceneInv(s')
  {
    forall q | q in s'.pumps ensures Left(s', Writes(s'.pumps[q])) {
      if q != p { StillLeft(s, s', Writes(s.pumps[q])); }
    }
  }

  // ---------------------------------------------------------------- ends and writes

  lemma ScenesGrow(ends: seq<RoundEnd>, end: RoundEnd)
    ensures ScenesOf(ends + [end]) == ScenesOf(ends) + {end.scene}
  {
    var all := ends + [end];
    assert forall i :: 0 <= i < |ends| ==> all[i] == ends[i];
    assert all[|ends|] == end;
    forall i | 0 <= i < |ends| ensures ends[i].scene in ScenesOf(all) { assert all[i].scene in ScenesOf(all); }
    assert all[|ends|].scene in ScenesOf(all);
  }

  lemma {:induction false} WithoutScenes(ends: seq<RoundEnd>, done: set<Id>)
    ensures ScenesOf(Without(ends, done)) <= ScenesOf(ends)
  {
    if ends != [] {
      var init, last := ends[..|ends| - 1], ends[|ends| - 1];
      WithoutScenes(init, done);
      ScenesGrow(init, last);
      assert ends == init + [last];
      ScenesGrow(Without(init, done), last);
    }
  }

  /** Writing ends and a pair of left scenes, or open ones, finishes no scene that is active. */
  lemma WrittenLeft(s: State, ends: seq<RoundEnd>, sc: SceneSnap, rd: RoundSnap)
    requires SceneInv(s) && Left(s, ScenesOf(ends) + {sc})
    ensures var scenes := RoundClose(s.disk, ends, sc, rd).scenes;
      forall c :: c in scenes ==> c < s.nextId && (scenes[c].Some? ==> c != s.scene)
  {
    WriteEndsScenes(s.disk, ends);
    forall i | 0 <= i < |ends|
      ensures ends[i].scene.id < s.nextId && (ends[i].scene.finished.Some? ==> ends[i].scene.id != s.scene)
    {
      assert ends[i].scene in ScenesOf(ends) + {sc};
    }
    assert !FinishedBy(ends, s.scene);
  }

  lemma TurnTxScenes(d: Disk, data: TurnClose)
    ensures data.next.None? ==> TurnTx(d, data).scenes == RoundClose(d, data.ends, data.scene, data.round).scenes
    ensures data.next.Some? ==>
      TurnTx(d, data).scenes ==
      RoundClose(d, data.ends + [RoundEnd(data.scene, data.round)], data.scene, data.next.value).scenes
  {
    var all := data.ends + [RoundEnd(data.scene, data.round)];
    assert all[..|data.ends|] == data.ends;
  }

  // ---------------------------------------------------------------- one step each

  lemma PairWriteKeeps(s: State, p: nat, ok: bool)
    requires SceneInv(s) && p in s.pumps && s.pumps[p].Ensuring?
    ensures SceneInv(DoAdvance(s, p, ok))
  {
    var q := s.pumps[p];
    assert Left(s, Writes(q));
    WrittenLeft(s, q.ends, q.sc, q.rd);
    StepKeeps(s, DoAdvance(s, p, ok), p);
  }

  lemma EndWriteKeeps(s: State, p: nat, ok: bool)
    requires SceneInv(s) && p in s.pumps && s.pumps[p].EndWriting?
    ensures SceneInv(DoAdvance(s, p, ok))
  {
    var q := s.pumps[p];
    assert Left(s, Writes(q));
    WrittenLeft(s, q.ends, q.end.scene, q.next);
    StepKeeps(s, DoAdvance(s, p, ok), p);
  }

  lemma TurnWriteMoves(s: State, p: nat, ok: bool)
    requires p in s.pumps && s.pumps[p].TurnWriting?
    ensures var s', data := DoAdvance(s, p, ok), s.pumps[p].data;
      && s'.scene == s.scene && s'.nextId == s.nextId && s'.ends == s.ends && OthersStay(s, s', p)
      && s'.disk.scenes == (if ok then TurnTx(s.disk, data).scenes else s.disk.scenes)
      && (p in s'.pumps ==> Writes(s'.pumps[p]) <= {data.scene} && !s'.pumps[p].Leaving?)
  {
  }

  lemma TurnWriteKeeps(s: State, p: nat, ok: bool)
    requires SceneInv(s) && p in s.pumps && s.pumps[p].TurnWriting?
    ensures SceneInv(DoAdvance(s, p, ok))
  {
    var data := s.pumps[p].data;
    assert Left(s, Writes(s.pumps[p]));
    TurnWriteMoves(s, p, ok);
    TurnTxScenes(s.disk, data);
    if data.next.Some? {
      var end := RoundEnd(data.scene, data.round);
      ScenesGrow(data.ends, end);
      WrittenLeft(s, data.ends + [end], data.scene, data.next.value);
    } else {
      WrittenLeft(s, data.ends, data.scene, data.round);
    }
    StepKeeps(s, DoAdvance(s, p, ok), p);
  }

  lemma LeaveKeeps(s: State, p: nat, ok: bool)
    requires SceneInv(s) && p in s.pumps && s.pumps[p].Leaving?
    ensures SceneInv(DoAdvance(s, p, ok))
  {
    var q := s.pumps[p];
    assert Left(s, Writes(q));
    assert q.end.scene in Writes(q) && q.sc in Writes(q);
    LeaveMoves(s, p, ok);
    StepKeeps(s, DoAdvance(s, p, ok), p);
  }

  lemma LeaveMoves(s: State, p: nat, ok: bool)
    requires p in s.pumps && s.pumps[p].Leaving?
    ensures var s', q := DoAdvance(s, p, ok), s.pumps[p];
      && s'.scene == s.scene && s'.nextId == s.nextId && s'.ends == s.ends && OthersStay(s, s', p)
      && s'.pumps.Keys == s.pumps.Keys
      && Writes(s'.pumps[p]) <= {q.end.scene, q.sc} && !s'.pumps[p].Leaving?
      && s'.disk.scenes.Keys == s.disk.scenes.Keys
      && (forall c :: c in s.disk.scenes && c != q.end.scene.id ==> s'.disk.scenes[c] == s.disk.scenes[c])
  {
  }

  lemma MarkKeeps(s: State, p: nat, ok: bool)
    requires SceneInv(s) && p in s.pumps && (s.pumps[p].EndFailed? || s.pumps[p].LeaveFailed?)
    ensures SceneInv(DoAdvance(s, p, ok))
  {
    var q := s.pumps[p];
    assert Left(s, Writes(q));
    assert q.end.scene in Writes(q);
    ScenesGrow(s.ends, q.end);
    assert Left(s, ScenesOf(MarkEnd(s.ends, q.end)));
    StepKeeps(s, DoAdvance(s, p, ok), p);
  }

  lemma ReadKeeps(s: State, p: nat, ok: bool)
    requires SceneInv(s) && p in s.pumps
    requires s.pumps[p].Reading? || s.pumps[p].RoundEnding? || s.pumps[p].Ending? || s.pumps[p].Draining?
    ensures SceneInv(DoAdvance(s, p, ok))
  {
    var q := s.pumps[p];
    assert Left(s, Writes(q));
    if q.Ending? { ScenesGrow(s.ends, q.end); }
    StepKeeps(s, DoAdvance(s, p, ok), p);
  }

  lemma WrittenKeeps(s: State, p: nat, ok: bool)
    requires SceneInv(s) && p in s.pumps && s.pumps[p].Written?
    ensures SceneInv(DoAdvance(s, p, ok))
  {
    WithoutScenes(s.ends, EndIds(s.pumps[p].ends));
    StepKeeps(s, DoAdvance(s, p, ok), p);
  }

  lemma AdvanceKeeps(s: State, p: nat, ok: bool)
    requires SceneInv(s)
    ensures SceneInv(DoAdvance(s, p, ok))
  {
    if p in s.pumps {
      match s.pumps[p] {
        case Reading(_, _) => ReadKeeps(s, p, ok);
        case Ensuring(_, _, _) => PairWriteKeeps(s, p, ok);
        case Written(_, _) => WrittenKeeps(s, p, ok);
        case RoundEnding(_) => ReadKeeps(s, p, ok);
        case Ending(_, _) => ReadKeeps(s, p, ok);
        case EndWriting(_, _, _) => EndWriteKeeps(s, p, ok);
        case EndFailed(_) => MarkKeeps(s, p, ok);
        case Draining(_, _) => ReadKeeps(s, p, ok);
        case TurnWriting(_) => TurnWriteKeeps(s, p, ok);
        case Leaving(_, _, _) => LeaveKeeps(s, p, ok);
        case LeaveFailed(_, _, _) => MarkKeeps(s, p, ok);
      }
    }
  }

  lemma LeaveSceneKeeps(s: State, p: nat, at: Time)
    requires SceneInv(s) && p !in s.pumps
    ensures SceneInv(DoLeaveScene(s, p, at))
  {
    if s.current.None? {
      var s', end := DoLeaveScene(s, p, at), RoundEnd(SceneSnap(s.scene, Some(at)), RoundSnap(s.round, Free, Some(at)));
      ScenesGrow(s.ends, end);
      StillLeft(s, s', ScenesOf(s.ends));
      assert Left(s', ScenesOf(s'.ends));
      StepKeeps(s, s', p);
    }
  }

  lemma TurnOverKeeps(s: State, p: nat, opens: bool)
    requires SceneInv(s) && p !in s.pumps
    ensures SceneInv(DoTurnOver(s, p, opens))
  {
    StepKeeps(s, DoTurnOver(s, p, opens), p);
  }

  lemma RoundOverKeeps(s: State, p: nat, at: Time)
    requires SceneInv(s) && p !in s.pumps
    ensures SceneInv(DoRoundOver(s, p, at))
  {
    StepKeeps(s, DoRoundOver(s, p, at), p);
  }

  lemma HoldKeeps(s: State, rec: Id, master: bool)
    requires SceneInv(s)
    ensures SceneInv(DoHold(s, rec, master))
  {
  }

  lemma MovedKeeps(s: State, m: Move)
    requires SceneInv(s)
    ensures SceneInv(Moved(s, m))
  {
    match m {
      case TurnOver(p, opens) => if p !in s.pumps { TurnOverKeeps(s, p, opens); }
      case RoundOver(p, at) => if p !in s.pumps { RoundOverKeeps(s, p, at); }
      case Hold(rec, master) => HoldKeeps(s, rec, master);
      case HoldIfOpen(_, rec, master) => HoldKeeps(s, rec, master);
      case Snapshot(p) => if p !in s.pumps { StepKeeps(s, Moved(s, m), p); }
      case ChangeScene(p, at) => if p !in s.pumps { LeaveSceneKeeps(s, p, at); }
      case Advance(p, ok) => AdvanceKeeps(s, p, ok);
    }
  }

  lemma {:induction false} PlayedKeeps(moves: seq<Move>)
    ensures SceneInv(Played(START, moves))
  {
    if moves != [] {
      PlayedKeeps(moves[..|moves| - 1]);
      MovedKeeps(Played(START, moves[..|moves| - 1]), moves[|moves| - 1]);
    }
  }

  /** Under every interleaving, the active scene's row, if there is one, is open. */
  lemma TheActiveSceneIsOpen(moves: seq<Move>)
    ensures var s := Played(START, moves); s.scene in s.disk.scenes ==> s.disk.scenes[s.scene] == None
  {
    PlayedKeeps(moves);
  }
}
