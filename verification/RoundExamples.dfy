/** Two short runs that show where the guarantees of RoundRuns and RoundHistory stop. */
module RoundExamples {
  import opened Prelude
  import opened Store
  import opened Session
  import opened RoomSpec
  import opened RoundInvariant
  import opened RoundRuns
  import opened RoundHistory

  lemma RunTo(w: World, commands: seq<Command>, k: nat)
    requires 0 < k <= |commands|
    ensures Run(w, commands[..k]) == Step(Run(w, commands[..k - 1]), commands[k - 1])
  {
    assert commands[..k][..k - 1] == commands[..k - 1];
  }

  const RACE := ChangeMode(Race, true, false)
  const OPEN := OpenNext(Opens, [], true, 0, false, false, true, true)

  /** The round runs out of payers while the database is down: neither write of its end succeeds. */
  const END_UNWRITTEN := OpenNext(NoneCanPay, [], true, 0, false, false, false, false)

  /** Then the scene changes: its own close is written, the next pair's birth is not. */
  const LEAVE := ChangeScene(0, true, false)

  /** The world once the round ended unwritten. */
  predicate Ended(w: World) {
    && w.s.scene == 0 && w.s.round == 3 && w.s.nextId == 4 && !w.s.HasOpenTurn()
    && w.s.scenePersisted && !w.s.roundPersisted
    && w.disk.scenes == map[0 := None] && w.disk.rounds == map[1 := RoundRow(0, Race, None)]
    && w.ends == [RoundEnd(SceneSnap(0, None), RoundSnap(1, Race, Some(0)))]
  }

  predicate Begun(w: World, mode: Mode) {
    && w.s == SessionState(0, 1, mode, 0, None, false, true, true, map[], 2) && w.ends == []
    && w.disk.scenes == map[0 := None] && w.disk.rounds == map[1 := RoundRow(0, mode, None)]
    && w.disk.turns == map[] && w.unwritten == {}
  }

  predicate Opened(w: World) {
    && w.s == SessionState(0, 1, Race, 1, Some(2), true, true, true, map[], 3) && w.ends == []
    && w.disk.scenes == map[0 := None] && w.disk.rounds == map[1 := RoundRow(0, Race, None)]
  }

  lemma RoundBegins()
    ensures Begun(Genesis(map[], false, true), Free)
  {
  }

  lemma RaceBegins(w: World)
    requires Begun(w, Free)
    ensures Begun(Step(w, RACE), Race)
  {
  }

  lemma TurnOpens(w: World)
    requires Begun(w, Race)
    ensures Opened(Step(w, OPEN))
  {
  }

  lemma RoundEndsUnwritten(w: World)
    requires Opened(w)
    ensures Ended(Step(w, END_UNWRITTEN))
  {
  }

  lemma EndedUnwritten(g: World, commands: seq<Command>)
    requires g == Genesis(map[], false, true) && commands == [RACE, OPEN, END_UNWRITTEN]
    ensures Ended(Run(g, commands))
  {
    RunTo(g, commands, 1);
    RunTo(g, commands, 2);
    RunTo(g, commands, 3);
    assert commands[..0] == [] && commands[..3] == commands;
    RoundBegins();
    RaceBegins(g);
    TurnOpens(Run(g, commands[..1]));
    RoundEndsUnwritten(Run(g, commands[..2]));
  }

  /** A change of scene here forgets the active round, which is never a row. */
  lemma ARoundCanBeForgotten(w: World)
    requires Ended(w)
    ensures w.s.round in Known(RoundsOf(w)) && w.s.round !in Known(RoundsOf(Step(w, LEAVE)))
  {
  }

  /** A restart right after it finds no open scene, so it starts a second round beside the first, which
      stays open in a finished scene: two open rounds, but never two in one scene. */
  lemma ARestartCanStrandARound(w: World)
    requires Ended(w)
    ensures var w' := Step(Step(w, LEAVE), Restart(true));
      && OpenRound(w'.disk, 1) && !OpenScene(w'.disk, w'.disk.rounds[1].scene)
      && OpenRound(w'.disk, w'.s.round) && w'.s.round != 1 && w'.ends == []
  {
    var left := Step(w, LEAVE);
    Left(w);
    assert FindActive(left.disk).None?;
  }

  lemma Left(w: World)
    requires Ended(w)
    ensures var left := Step(w, LEAVE);
      && left.disk.scenes == map[0 := Some(0)] && left.disk.rounds == map[1 := RoundRow(0, Race, None)]
      && left.s.nextId == 6 && left.s.round == 5 && left.ends == w.ends
  {
  }
}
