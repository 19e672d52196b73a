/** No round is ever born open next to a predecessor still open on disk: the invariant every
    command keeps, with any write failing and with restarts. Granularity: commands. */
module RoundInvariant {
  import opened Prelude
  import opened Store
  import opened Session
  import opened RoomSpec

  /** What the protocol is about: the active pair and its flags, the rows, the ends still unwritten. */
  datatype Rounds = Rounds(
    scene: Id, round: Id, scenePersisted: bool, roundPersisted: bool, nextId: Id,
    scenes: map<Id, Option<Time>>, rows: map<Id, RoundRow>, ends: seq<RoundEnd>)
  {
    predicate Open(r: Id) { r in rows && rows[r].finished.None? }

    predicate OpenScene(s: Id) { s in scenes && scenes[s].None? }
  }

  function RoundsOf(w: World): Rounds {
    Rounds(w.s.scene, w.s.round, w.s.scenePersisted, w.s.roundPersisted, w.s.nextId, w.disk.scenes, w.disk.rounds,
      w.ends)
  }

  ghost predicate FinishedBy(ends: seq<RoundEnd>, s: Id) {
    exists i :: 0 <= i < |ends| && ends[i].scene.id == s && ends[i].scene.finished.Some?
  }

  function EndScenes(ends: seq<RoundEnd>): set<Id> { set i | 0 <= i < |ends| :: ends[i].scene.id }

  /** The flags are the truth, and an active round that is a row leaves no end waiting. */
  ghost predicate FlagsTrue(x: Rounds) {
    && (x.scenePersisted <==> x.scene in x.scenes)
    && (x.roundPersisted <==> x.round in x.rows)
    && (x.roundPersisted ==> x.scenePersisted && x.ends == [])
    && (x.scene in x.scenes ==> x.OpenScene(x.scene))
    && (x.round in x.rows ==> x.Open(x.round) && x.rows[x.round].scene == x.scene)
  }

  ghost predicate EndsSound(x: Rounds) {
    && ValidEnds(x.ends)
    && x.round !in EndIds(x.ends)
    && !FinishedBy(x.ends, x.scene)
    && (forall i, j :: 0 <= i < j < |x.ends| ==> x.ends[i].round.id != x.ends[j].round.id)
    && (forall i :: 0 <= i < |x.ends| && x.ends[i].round.id in x.rows ==>
          x.rows[x.ends[i].round.id].scene == x.ends[i].scene.id)
  }

  /** Every open row is the active round, a round whose end is still unwritten, or an orphan an
      earlier room left; and outside the orphans there is at most one. */
  ghost predicate OpenAccounted(x: Rounds, orphans: set<Id>) {
    && (forall r :: x.Open(r) ==> r == x.round || r in EndIds(x.ends) || r in orphans)
    && (forall r, q :: x.Open(r) && x.Open(q) && r !in orphans && q !in orphans ==> r == q)
  }

  ghost predicate HasOpenRound(rows: map<Id, RoundRow>, s: Id) {
    exists r :: r in rows && rows[r].finished.None? && rows[r].scene == s
  }

  /** Every open scene row is the active scene or waits to be closed with an unwritten end, and holds
      an open round. */
  ghost predicate ScenesAccounted(x: Rounds) {
    && (forall s :: x.OpenScene(s) ==> s == x.scene || FinishedBy(x.ends, s))
    && (forall s :: x.OpenScene(s) ==> HasOpenRound(x.rows, s))
    && (forall s :: s in EndScenes(x.ends) ==> s in x.scenes || s == x.scene || FinishedBy(x.ends, s))
  }

  /** An orphan is an open round of a finished scene this room never touches, one a scene at most. */
  ghost predicate OrphansApart(x: Rounds, orphans: set<Id>) {
    && (forall r :: r in orphans ==> x.Open(r) && r != x.round && r !in EndIds(x.ends))
    && (forall r :: r in orphans ==>
          && x.rows[r].scene in x.scenes && x.scenes[x.rows[r].scene].Some?
          && x.rows[r].scene != x.scene && x.rows[r].scene !in EndScenes(x.ends))
    && (forall r, q :: r in orphans && q in orphans && x.rows[r].scene == x.rows[q].scene ==> r == q)
  }

  ghost predicate IdsBelow(x: Rounds) {
    && x.scene < x.nextId && x.round < x.nextId
    && (forall r :: r in x.rows ==> r < x.nextId && x.rows[r].scene in x.scenes)
    && (forall s :: s in x.scenes ==> s < x.nextId)
    && (forall i :: 0 <= i < |x.ends| ==> x.ends[i].round.id < x.nextId && x.ends[i].scene.id < x.nextId)
  }

  ghost predicate RoundInv(x: Rounds, orphans: set<Id>) {
    && FlagsTrue(x) && EndsSound(x) && OpenAccounted(x, orphans)
    && ScenesAccounted(x) && OrphansApart(x, orphans) && IdsBelow(x)
  }

  // ---------------------------------------------------------------- what one transaction writes

  /** Everything but scenes and rounds is left alone. */
  ghost predicate OnlyPairs(d: Disk, d': Disk) {
    d' == d.(scenes := d'.scenes, rounds := d'.rounds)
  }

  /** The round rows after ends were written: every end closed, no finish moved, the rest untouched. */
  ghost predicate RoundRowsAfter(rows: map<Id, RoundRow>, rows': map<Id, RoundRow>, ends: seq<RoundEnd>) {
    && rows'.Keys == rows.Keys + EndIds(ends)
    && (forall r :: r in EndIds(ends) ==> rows'[r].finished.Some?)
    && (forall r :: r in rows ==> rows'[r].scene == rows[r].scene)
    && (forall r :: r in rows && rows[r].finished.Some? ==> rows'[r].finished == rows[r].finished)
    && (forall r :: r in rows && r !in EndIds(ends) ==> rows'[r] == rows[r])
    && (forall r :: r in rows' && r !in rows ==> rows'[r].scene in EndScenes(ends))
  }

  /** The scene rows after ends were written: finished where an end says so, no finish moved. */
  ghost predicate SceneRowsAfter(scenes: map<Id, Option<Time>>, scenes': map<Id, Option<Time>>, ends: seq<RoundEnd>) {
    && scenes'.Keys == scenes.Keys + EndScenes(ends)
    && (forall s :: s in scenes && (scenes[s].Some? || !FinishedBy(ends, s)) ==> scenes'[s] == scenes[s])
    && (forall s :: s in scenes' && FinishedBy(ends, s) ==> scenes'[s].Some?)
    && (forall s :: s in scenes' && s !in scenes && !FinishedBy(ends, s) ==> scenes'[s].None?)
  }

  lemma EndsGrow(ends: seq<RoundEnd>, last: RoundEnd)
    ensures EndIds(ends + [last]) == EndIds(ends) + {last.round.id}
    ensures EndScenes(ends + [last]) == EndScenes(ends) + {last.scene.id}
    ensures forall s :: FinishedBy(ends + [last], s) <==>
      FinishedBy(ends, s) || (last.scene.id == s && last.scene.finished.Some?)
  {
    var all := ends + [last];
    assert forall i :: 0 <= i < |ends| ==> all[i] == ends[i];
    assert all[|ends|] == last;
    forall i | 0 <= i < |ends| ensures ends[i].round.id in EndIds(all) && ends[i].scene.id in EndScenes(all) {
      assert all[i] == ends[i];
    }
    forall s | FinishedBy(ends, s) ensures FinishedBy(all, s) {
      var i :| 0 <= i < |ends| && ends[i].scene.id == s && ends[i].scene.finished.Some?;
      assert all[i] == ends[i];
    }
    assert all[|ends|].scene.id in EndScenes(all) && all[|ends|].round.id in EndIds(all);
  }

  lemma {:induction false} WriteEndsRows(d: Disk, ends: seq<RoundEnd>)
    requires ValidEnds(ends)
    ensures OnlyPairs(d, WriteEnds(d, ends))
    ensures RoundRowsAfter(d.rounds, WriteEnds(d, ends).rounds, ends)
  {
    if ends != [] {
      var init, last := ends[..|ends| - 1], ends[|ends| - 1];
      WriteEndsRows(d, init);
      EndsGrow(init, last);
      assert ends == init + [last];
    }
  }

  lemma {:induction false} WriteEndsScenes(d: Disk, ends: seq<RoundEnd>)
    ensures SceneRowsAfter(d.scenes, WriteEnds(d, ends).scenes, ends)
  {
    if ends != [] {
      var init, last := ends[..|ends| - 1], ends[|ends| - 1];
      WriteEndsScenes(d, init);
      EndsGrow(init, last);
      assert ends == init + [last];
    }
  }

  /** x with every unwritten end and the active pair written in one transaction, and the flags told. */
  ghost function Settled(x: Rounds, d: Disk, mode: Mode): Rounds {
    var d' := RoundClose(d, x.ends, SceneSnap(x.scene, None), RoundSnap(x.round, mode, None));
    x.(scenes := d'.scenes, rows := d'.rounds, ends := [], scenePersisted := true, roundPersisted := true)
  }

  /** What settling does, row by row: the open rounds left are the active one and those no end named;
      the only open scene left is the active one. */
  ghost predicate SettledRounds(x: Rounds, y: Rounds) {
    && (forall r :: y.Open(r) <==> r == x.round || (x.Open(r) && r !in EndIds(x.ends)))
    && x.round in y.rows && y.rows[x.round].scene == x.scene
    && (forall r :: r in x.rows ==> r in y.rows && y.rows[r].scene == x.rows[r].scene)
    && (forall r :: r in y.rows ==> r in x.rows || r == x.round || r in EndIds(x.ends))
    && (forall r :: r in y.rows && r !in x.rows ==> y.rows[r].scene in EndScenes(x.ends) || y.rows[r].scene == x.scene)
  }

  ghost predicate SettledScenes(x: Rounds, y: Rounds) {
    && (forall s :: y.OpenScene(s) <==> s == x.scene)
    && y.scenes.Keys == x.scenes.Keys + EndScenes(x.ends) + {x.scene}
  }

  ghost predicate SettledShape(x: Rounds, y: Rounds) {
    && y == x.(scenes := y.scenes, rows := y.rows, ends := [], scenePersisted := true, roundPersisted := true)
    && SettledRounds(x, y) && SettledScenes(x, y)
  }

  lemma SettledRoundRows(x: Rounds, mid: Disk, y: Rounds, mode: Mode)
    requires x.round !in EndIds(x.ends)
    requires x.round in x.rows ==> x.Open(x.round) && x.rows[x.round].scene == x.scene
    requires RoundRowsAfter(x.rows, mid.rounds, x.ends)
    requires y.rows == UpsertRound(mid, x.scene, RoundSnap(x.round, mode, None)).rounds
    ensures SettledRounds(x, y)
  {
  }

  lemma SettledSceneRows(x: Rounds, mid: Disk, y: Rounds)
    requires x.scene in x.scenes ==> x.OpenScene(x.scene)
    requires !FinishedBy(x.ends, x.scene)
    requires forall s :: x.OpenScene(s) ==> s == x.scene || FinishedBy(x.ends, s)
    requires forall s :: s in EndScenes(x.ends) ==> s in x.scenes || s == x.scene || FinishedBy(x.ends, s)
    requires SceneRowsAfter(x.scenes, mid.scenes, x.ends)
    requires y.scenes == UpsertScene(mid, SceneSnap(x.scene, None)).scenes
    ensures SettledScenes(x, y)
  {
  }

  lemma NoEnds(x: Rounds)
    requires x.ends == []
    ensures EndIds(x.ends) == {} && EndScenes(x.ends) == {} && EndsSound(x)
  {
  }

  lemma SettledKeepsFlags(x: Rounds, y: Rounds, orphans: set<Id>)
    requires FlagsTrue(x) && SettledShape(x, y)
    ensures FlagsTrue(y)
  {
  }

  lemma SettledKeepsOpen(x: Rounds, y: Rounds, orphans: set<Id>)
    requires OpenAccounted(x, orphans) && SettledShape(x, y)
    ensures OpenAccounted(y, orphans)
  {
  }

  lemma SettledKeepsScenes(x: Rounds, y: Rounds, orphans: set<Id>)
    requires ScenesAccounted(x) && SettledShape(x, y)
    ensures ScenesAccounted(y)
  {
    NoEnds(y);
    assert y.Open(x.round);
  }

  lemma SettledKeepsOrphans(x: Rounds, y: Rounds, orphans: set<Id>)
    requires OrphansApart(x, orphans) && SettledShape(x, y)
    ensures OrphansApart(y, orphans)
  {
    NoEnds(y);
    forall r | r in orphans ensures y.Open(r) && y.rows[r].scene == x.rows[r].scene && y.scenes[y.rows[r].scene].Some? {
      assert x.Open(r);
      assert !y.OpenScene(x.rows[r].scene);
    }
  }

  lemma SettledKeepsIds(x: Rounds, y: Rounds, orphans: set<Id>)
    requires IdsBelow(x) && SettledShape(x, y)
    ensures IdsBelow(y)
  {
  }

  lemma SettledKeeps(x: Rounds, y: Rounds, orphans: set<Id>)
    requires RoundInv(x, orphans) && SettledShape(x, y)
    ensures RoundInv(y, orphans)
  {
    NoEnds(y);
    SettledKeepsFlags(x, y, orphans);
    SettledKeepsOpen(x, y, orphans);
    SettledKeepsScenes(x, y, orphans);
    SettledKeepsOrphans(x, y, orphans);
    SettledKeepsIds(x, y, orphans);
  }

  lemma SettledHasShape(x: Rounds, d: Disk, mode: Mode, orphans: set<Id>)
    requires RoundInv(x, orphans) && d.scenes == x.scenes && d.rounds == x.rows
    ensures SettledShape(x, Settled(x, d, mode))
    ensures RoundInv(Settled(x, d, mode), orphans)
  {
    var mid := WriteEnds(d, x.ends);
    WriteEndsRows(d, x.ends);
    WriteEndsScenes(d, x.ends);
    var y := Settled(x, d, mode);
    assert y.rows == UpsertRound(mid, x.scene, RoundSnap(x.round, mode, None)).rounds;
    assert y.scenes == UpsertScene(mid, SceneSnap(x.scene, None)).scenes;
    SettledRoundRows(x, mid, y, mode);
    SettledSceneRows(x, mid, y);
    SettledKeeps(x, y, orphans);
  }

  // ---------------------------------------------------------------- what happens in memory

  lemma Later(x: Rounds, nextId: Id, orphans: set<Id>)
    requires RoundInv(x, orphans) && x.nextId <= nextId
    ensures RoundInv(x.(nextId := nextId), orphans)
  {
  }

  /** A round ends in memory, alone or with its scene: no row moves, the old round waits to be closed, and
      its scene too when it is left. */
  ghost predicate Handover(x: Rounds, y: Rounds) {
    && y.rows == x.rows && y.scenes == x.scenes
    && x.nextId <= y.round < y.nextId && !y.roundPersisted
    && ((y.scene == x.scene && y.scenePersisted == x.scenePersisted)
          || (x.nextId <= y.scene < y.nextId && !y.scenePersisted))
    && EndIds(y.ends) == EndIds(x.ends) + {x.round}
    && EndScenes(y.ends) == EndScenes(x.ends) + {x.scene}
    && (forall s :: FinishedBy(y.ends, s) <==> FinishedBy(x.ends, s) || (s == x.scene && y.scene != x.scene))
  }

  lemma HandoverKeepsFlags(x: Rounds, y: Rounds)
    requires FlagsTrue(x) && IdsBelow(x) && Handover(x, y)
    ensures FlagsTrue(y)
  {
  }

  lemma HandoverKeepsOpen(x: Rounds, y: Rounds, orphans: set<Id>)
    requires OpenAccounted(x, orphans) && Handover(x, y)
    ensures OpenAccounted(y, orphans)
  {
  }

  lemma HandoverKeepsScenes(x: Rounds, y: Rounds)
    requires ScenesAccounted(x) && Handover(x, y)
    ensures ScenesAccounted(y)
  {
  }

  lemma HandoverKeepsOrphans(x: Rounds, y: Rounds, orphans: set<Id>)
    requires OrphansApart(x, orphans) && IdsBelow(x) && Handover(x, y)
    ensures OrphansApart(y, orphans)
  {
  }

  lemma HandoverKeepsEnds(x: Rounds, y: Rounds, end: RoundEnd)
    requires EndsSound(x) && FlagsTrue(x) && IdsBelow(x) && Handover(x, y)
    requires y.ends == x.ends + [end] && end.round.id == x.round && end.scene.id == x.scene && end.round.finished.Some?
    ensures EndsSound(y)
  {
  }

  lemma HandoverKeepsIds(x: Rounds, y: Rounds, end: RoundEnd)
    requires IdsBelow(x) && Handover(x, y) && x.nextId <= y.nextId
    requires y.ends == x.ends + [end] && end.round.id == x.round && end.scene.id == x.scene
    ensures IdsBelow(y)
  {
  }

  lemma HandoverKeeps(x: Rounds, y: Rounds, end: RoundEnd, orphans: set<Id>)
    requires RoundInv(x, orphans)
    requires y == x.(scene := y.scene, round := y.round, scenePersisted := y.scenePersisted,
      roundPersisted := false, nextId := y.nextId, ends := x.ends + [end])
    requires x.nextId <= y.round < y.nextId
    requires (y.scene == x.scene && y.scenePersisted == x.scenePersisted && end.scene.finished.None?)
          || (x.nextId <= y.scene < y.nextId && !y.scenePersisted && end.scene.finished.Some?)
    requires end.round.id == x.round && end.scene.id == x.scene && end.round.finished.Some?
    ensures RoundInv(y, orphans)
  {
    EndsGrow(x.ends, end);
    HandoverKeepsFlags(x, y);
    HandoverKeepsOpen(x, y, orphans);
    HandoverKeepsScenes(x, y);
    HandoverKeepsOrphans(x, y, orphans);
    HandoverKeepsEnds(x, y, end);
    HandoverKeepsIds(x, y, end);
  }

  /** The scene changes and its old pair is closed on disk at once. */
  function SceneClosed(x: Rounds, d: Disk, at: Time): Rounds {
    var d' := ClosePair(d, x.scene, x.round, at);
    x.(scene := x.nextId, round := x.nextId + 1, scenePersisted := false, roundPersisted := false,
      nextId := x.nextId + 2,
       scenes := d'.scenes, rows := d'.rounds)
  }

  /** The query a restart resumes from never has two scenes to choose from. */
  lemma OneOpenScene(x: Rounds, s: Id, t: Id, orphans: set<Id>)
    requires RoundInv(x, orphans) && x.OpenScene(s) && x.OpenScene(t)
    ensures s == t
  {
  }

  lemma SceneClosedKeeps(x: Rounds, d: Disk, at: Time, orphans: set<Id>)
    requires RoundInv(x, orphans) && d.scenes == x.scenes && d.rounds == x.rows && x.scenePersisted
    ensures RoundInv(SceneClosed(x, d, at), orphans)
  {
    var y := SceneClosed(x, d, at);
    assert forall r :: y.Open(r) <==> x.Open(r) && r != x.round;
    assert forall s :: y.OpenScene(s) <==> x.OpenScene(s) && s != x.scene;
    forall s | x.OpenScene(s) ensures s == x.scene { OneOpenScene(x, s, x.scene, orphans); }
  }
}
