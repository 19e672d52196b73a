/** Two short interleavings of the master's pump and one player's: why the open-round rule needs one pump
    at a time, and how a round can be left open with nobody to close it. */
module PumpExamples {
  import opened Prelude
  import opened Store
  import opened Pumps
  import opened PumpRounds
  import opened PumpCommits
  import RoomSpec

  // ---------------------------------------------------------------- playing moves in threes

  lemma PlayedTo(s: State, m: seq<Move>, k: nat)
    requires 0 < k <= |m|
    ensures Played(s, m[..k]) == Moved(Played(s, m[..k - 1]), m[k - 1])
  {
    assert m[..k][..k - 1] == m[..k - 1];
  }

  lemma ThreePlays(s: State, m: seq<Move>)
    requires |m| == 3
    ensures Played(s, m) == Moved(Moved(Moved(s, m[0]), m[1]), m[2])
  {
    PlayedTo(s, m, 1);
    PlayedTo(s, m, 2);
    PlayedTo(s, m, 3);
    assert m[..0] == [] && m[..3] == m;
  }

  ghost predicate Reachable(s: State) { exists moves: seq<Move> :: Played(START, moves) == s }

  lemma Then(s: State, next: seq<Move>, after: State)
    requires Reachable(s) && Played(s, next) == after
    ensures Reachable(after)
  {
    var before :| Played(START, before) == s;
    PlayedOn(START, before, next);
  }

  // ---------------------------------------------------------------- the first pair is written

  const BIRTH: seq<Move> := [Snapshot(0), Advance(0, true), Advance(0, true)]

  const WRITTEN := START.(
    disk := START.disk.(scenes := map[0 := None], rounds := map[1 := RoundRow(0, Free, None)]),
    pumps := map[0 := Written(RoundSnap(1, Free, None), [])])

  const BORN := WRITTEN.(scenePersisted := true, roundPersisted := true, pumps := map[])

  lemma Born()
    ensures Reachable(BORN)
  {
    ThreePlays(START, BIRTH);
    var s2 := Moved(Moved(START, BIRTH[0]), BIRTH[1]);
    assert s2.pumps == map[0 := Ensuring(SceneSnap(0, None), RoundSnap(1, Free, None), [])];
    assert Moved(s2, BIRTH[2]) == WRITTEN;
    PlayedTo(START, BIRTH + [Advance(0, true)], 4);
    assert (BIRTH + [Advance(0, true)])[..3] == BIRTH;
    assert (BIRTH + [Advance(0, true)])[..4] == BIRTH + [Advance(0, true)];
  }

  // ---------------------------------------------------------------- the race

  /** The round's end, once it is in the master pump's hands. */
  const END := RoundEnd(SceneSnap(0, None), RoundSnap(1, Free, Some(5)))
  const SECOND := RoundSnap(2, Free, None)

  /** The round ends, and before the master's pump writes it, the player's cancels an action: it makes the
      new round a row, alone. Then the write of the end fails. */
  const RACE_1: seq<Move> := [RoundOver(0, 5), Snapshot(1), Advance(1, true)]
  const RACE_2: seq<Move> := [Advance(1, true), Advance(1, true), Advance(0, false)]
  const RACE_3: seq<Move> := [Advance(0, false), Advance(0, false), Advance(0, false)]

  const ENDED := BORN.(round := 2, roundPersisted := false, nextId := 3, ended := {1})

  const CAUGHT := ENDED.(pumps := map[0 := RoundEnding(END.round), 1 := Ensuring(SceneSnap(0, None), SECOND, [])])

  const TWO_OPEN := ENDED.(
    roundPersisted := true,
    disk := ENDED.disk.(rounds := map[1 := RoundRow(0, Free, None), 2 := RoundRow(0, Free, None)]),
    pumps := map[0 := Ending(END, SECOND)])

  const STUCK := TWO_OPEN.(ends := [END], pumps := map[])

  lemma TheRoundEnds()
    ensures Played(BORN, RACE_1) == CAUGHT
  {
    ThreePlays(BORN, RACE_1);
  }

  lemma TheCancelWrites()
    ensures Played(CAUGHT, RACE_2) == TWO_OPEN
  {
    assert Moved(CAUGHT, RACE_2[0]).disk == TWO_OPEN.disk;
    ThreePlays(CAUGHT, RACE_2);
  }

  lemma TheEndFails()
    ensures Played(TWO_OPEN, RACE_3) == STUCK
  {
    assert TWO_OPEN.ends + [END] == [END];
    ThreePlays(TWO_OPEN, RACE_3);
  }

  lemma TheRaceIsReachable()
    ensures Reachable(STUCK)
  {
    Born();
    TheRoundEnds();
    TheCancelWrites();
    TheEndFails();
    Then(BORN, RACE_1, CAUGHT);
    Then(CAUGHT, RACE_2, TWO_OPEN);
    Then(TWO_OPEN, RACE_3, STUCK);
  }

  /** With both pumps done and the flag up, both rounds are open, in one scene, and only the room's memory
      knows that the first has ended. No scene changed, and no end was forgotten. */
  lemma TwoPumpsTwoOpenRounds(s: State)
    requires s == STUCK
    ensures Reachable(s) && s.pumps == map[] && s.roundPersisted && s.ends == [END] && s.forgotten == {}
    ensures OpenRound(s.disk, 1) && OpenRound(s.disk, 2) && !AtMostOneOpen(s.disk)
    ensures s.disk.rounds[1].scene == s.disk.rounds[2].scene == s.scene
  {
    TheRaceIsReachable();
    assert OpenRound(s.disk, 1) && OpenRound(s.disk, 2);
  }

  /** And the step that broke the rule is the cancel's commit: it named no end, and wrote its pair beside
      the open round. */
  lemma TheCancelBrokeIt()
    ensures Uncarried(CAUGHT, RACE_2[0]) && AtMostOneOpen(CAUGHT.disk)
  {
    assert OpenRound(CAUGHT.disk, 1);
  }

  // ---------------------------------------------------------------- the forgotten round

  /** The round's end fails and waits; a cancel snapshots the new round; the scene changes and closes the
      pair before that round is a row; and only then does the cancel write it. */
  const LATE_1: seq<Move> := [RoundOver(0, 5), Advance(0, true), Advance(0, true)]
  const LATE_2: seq<Move> := [Advance(0, false), Advance(0, false), Snapshot(1)]
  const LATE_3: seq<Move> := [ChangeScene(0, 6), Advance(0, true), Advance(1, true)]
  const LATE_4: seq<Move> := [Advance(1, true), Advance(1, true), Advance(0, true)]

  const FAILING := ENDED.(pumps := map[0 := EndWriting(END, SECOND, [END])])
  const WAITING := ENDED.(ends := [END], pumps := map[1 := Reading(SceneSnap(0, None), SECOND)])
  const LEFT := WAITING.(
    scene := 3, round := 4, scenePersisted := false, nextId := 5, ended := {1, 2}, forgotten := {2},
    disk := WAITING.disk.(scenes := map[0 := Some(6)]),
    pumps := map[0 := Reading(SceneSnap(3, None), RoundSnap(4, Free, None)),
      1 := Ensuring(SceneSnap(0, None), SECOND, [END])])
  const ADRIFT := LEFT.(
    ends := [],
    disk := LEFT.disk.(rounds := map[1 := RoundRow(0, Free, Some(5)), 2 := RoundRow(0, Free, None)]),
    pumps := map[0 := Ensuring(SceneSnap(3, None), RoundSnap(4, Free, None), [])])

  lemma TheEndIsWritten()
    ensures Played(BORN, LATE_1) == FAILING
  {
    assert BORN.ends + [END] == [END];
    ThreePlays(BORN, LATE_1);
  }

  lemma TheEndWaits()
    ensures Played(FAILING, LATE_2) == WAITING
  {
    ThreePlays(FAILING, LATE_2);
  }

  lemma TheSceneChanges()
    ensures Played(WAITING, LATE_3) == LEFT
  {
    ThreePlays(WAITING, LATE_3);
  }

  lemma OneEnd(d: Disk, end: RoundEnd, ends: seq<RoundEnd>)
    requires ends == [end]
    ensures WriteEnds(d, ends) == EnsurePair(d, end.scene, end.round)
  {
    assert ends[..0] == [] && WriteEnds(d, []) == d;
  }

  lemma TheLateCommit()
    ensures Moved(LEFT, LATE_4[0]) == LEFT.(
      disk := ADRIFT.disk, pumps := LEFT.pumps[1 := Written(SECOND, [END])])
  {
    var d := WriteEnds(LEFT.disk, [END]);
    OneEnd(LEFT.disk, END, [END]);
    assert d.scenes == map[0 := Some(6)];
    assert d.rounds == map[1 := RoundRow(0, Free, Some(5))];
    assert EnsurePair(d, SceneSnap(0, None), SECOND) == ADRIFT.disk;
  }

  lemma TheEndIsForgotten()
    ensures RoomSpec.Without([END], RoomSpec.EndIds([END])) == []
  {
    assert [END][0].round.id == 1 && [END][..0] == [];
    assert 1 in RoomSpec.EndIds([END]);
  }

  lemma TheCancelIsLate()
    ensures Played(LEFT, LATE_4) == ADRIFT
  {
    TheLateCommit();
    TheEndIsForgotten();
    ThreePlays(LEFT, LATE_4);
    var s1 := Moved(LEFT, LATE_4[0]);
    assert Moved(s1, LATE_4[1]) == s1.(ends := [], pumps := s1.pumps - {1});
  }

  /** Round 2 is then an open row that is not active, waits nowhere and is in no pump's hands. */
  lemma ARoundNobodyCloses()
    ensures Reachable(ADRIFT)
    ensures OpenRound(ADRIFT.disk, 2) && ADRIFT.round == 4 && ADRIFT.ends == [] && !InHand(ADRIFT, 2)
    ensures ADRIFT.forgotten == {2}
  {
    Born();
    TheEndIsWritten();
    TheEndWaits();
    TheSceneChanges();
    TheCancelIsLate();
    Then(BORN, LATE_1, FAILING);
    Then(FAILING, LATE_2, WAITING);
    Then(WAITING, LATE_3, LEFT);
    Then(LEFT, LATE_4, ADRIFT);
  }
}
