/** Which turns closed and what each one accepted, read off the commands themselves, and that this is what the
    turns' writes carry. Granularity: commands. */
module TurnLog {
  import opened Prelude
  import opened Store
  import opened Session
  import opened RoomSpec
  import opened RoundInvariant
  import opened RoundRuns
  import opened LiveView
  import opened TurnInvariant
  import opened Commands

  // ---------------------------------------------------------------- what is seen

  predicate OpenIs(s: SessionState, t: Id) { s.HasOpenTurn() && s.current.value == t }

  /** The records command c makes in turn t, if that is the open one: a master action is one, under the id it
      is given; a cascade is one an action, in its order. */
  function MastersOf(w: World, c: Command, t: Id): seq<Record> {
    if c.MasterAction? && OpenIs(w.s, t) then [Record(ActionId(w, c), w.s.scene, w.s.round, Some(t))] else []
  }

  function CancelsOf(w: World, c: Command, t: Id): seq<Record> {
    if c.CancelActions? && OpenIs(w.s, t) then CascadeOf(w.s, c.acts, t) else []
  }

  function CascadeOf(s: SessionState, acts: seq<Cancelling>, t: Id): seq<Record> {
    seq(|acts|, i requires 0 <= i < |acts| => Record(acts[i].action, s.scene, s.round, Some(t)))
  }

  /** Over a run, in order. */
  ghost function Masters(w: World, commands: seq<Command>, t: Id): seq<Record> {
    if commands == [] then []
    else
      var n := |commands| - 1;
      Masters(w, commands[..n], t) + MastersOf(Run(w, commands[..n]), commands[n], t)
  }

  ghost function Cancels(w: World, commands: seq<Command>, t: Id): seq<Record> {
    if commands == [] then []
    else
      var n := |commands| - 1;
      Cancels(w, commands[..n], t) + CancelsOf(Run(w, commands[..n]), commands[n], t)
  }

  /** The turns seen to close: open before a command and not after it. A restart closes none: the turn that was
      open is lost with the process. */
  ghost function Closings(w: World, commands: seq<Command>): seq<Id> {
    if commands == [] then []
    else
      var n := |commands| - 1;
      var s, s' := Run(w, commands[..n]).s, Run(w, commands).s;
      Closings(w, commands[..n]) +
      if s.HasOpenTurn() && !commands[n].Restart? && !OpenIs(s', s.current.value) then [s.current.value] else []
  }

  // ---------------------------------------------------------------- one command

  lemma VerbAccepts(w: World, c: Command)
    requires IsVerb(c)
    ensures Step(w, c).log.accepted == w.log.accepted
  {
    StepLive(w, c);
    var v, v' := LiveOf(w), LiveOf(Step(w, c));
    if v' != v {
      var b: Verb :| b.hits == c.hits && Carries(v, b, v');
      if v.current.Some? { ClosingVerbFields(v, b, v'); } else { IdleVerbFields(v, b, v'); }
    }
  }

  lemma MasterAccepts(w: World, c: Command, t: Id)
    requires c.MasterAction?
    ensures Held(Step(w, c).log.accepted, t).masterActions ==
      Held(w.log.accepted, t).masterActions + MastersOf(w, c, t)
    ensures Held(Step(w, c).log.accepted, t).cancelledActions == Held(w.log.accepted, t).cancelledActions
  {
    var inserted, saved := MasterActionLive(w, c);
  }

  lemma {:induction false} HoldAllAccepts(w: World, open: Id, acts: seq<Cancelling>, t: Id)
    requires OpenIs(w.s, open)
    ensures var held, before := Held(HoldAll(w, open, acts).log.accepted, t), Held(w.log.accepted, t);
      && held.masterActions == before.masterActions
      && held.cancelledActions == before.cancelledActions + if open == t then CascadeOf(w.s, acts, t) else []
  {
    if acts != [] {
      var n := |acts| - 1;
      HoldAllAccepts(w, open, acts[..n], t);
      assert CascadeOf(w.s, acts, t) == CascadeOf(w.s, acts[..n], t) + [Record(acts[n].action, w.s.scene, w.s.round,
        Some(t))];
    }
  }

  lemma {:induction false} WriteAllAccepts(w: World, sc: SceneSnap, rd: RoundSnap, persisted: bool,
      acts: seq<Cancelling>)
    ensures WriteAllCancelled(w, sc, rd, persisted, acts).log == w.log
  {
    if acts != [] {
      var n := |acts| - 1;
      WriteAllAccepts(w, sc, rd, persisted, acts[..n]);
      EnsureRowsLive(WriteAllCancelled(w, sc, rd, persisted, acts[..n]), sc, rd, acts[n].ensureUp);
    }
  }

  lemma StepAccepts(w: World, c: Command, t: Id)
    ensures var held, before := Held(Step(w, c).log.accepted, t), Held(w.log.accepted, t);
      && held.masterActions == before.masterActions + MastersOf(w, c, t)
      && held.cancelledActions == before.cancelledActions + CancelsOf(w, c, t)
  {
    if IsVerb(c) {
      VerbAccepts(w, c);
    } else if c.MasterAction? {
      MasterAccepts(w, c, t);
    } else if c.CancelActions? {
      if w.s.HasOpenTurn() { HoldAllAccepts(w, w.s.current.value, c.acts, t); }
      else { WriteAllAccepts(w, w.s.SceneNow(), w.s.RoundNow(), w.s.roundPersisted, c.acts); }
    } else {
      StepLive(w, c);
      assert LiveOf(Step(w, c)).log == LiveOf(w).log;
    }
  }

  /** What the log says of closed turns, one command on: the turn that was open and is not. */
  lemma StepCloses(v: Live, c: Command, v': Live)
    requires TurnInv(v) && LiveStep(v, c, v')
    ensures v'.log.closed == v.log.closed +
      if v.current.Some? && !c.Restart? && v'.current != v.current then [v.current.value] else []
  {
    if v' == v {
    } else if IsVerb(c) {
      var b: Verb :| b.hits == c.hits && Carries(v, b, v');
      VerbCloses(v, b, v');
    } else {
      OthersClose(v, c, v');
    }
  }

  lemma VerbCloses(v: Live, b: Verb, v': Live)
    requires TurnInv(v) && Carries(v, b, v')
    ensures v'.log.closed == v.log.closed + if v.current.Some? then [v.current.value] else []
    ensures v.current.Some? ==> v'.current != v.current
  {
    if v.current.Some? { ClosingVerbFields(v, b, v'); } else { IdleVerbFields(v, b, v'); }
  }

  lemma OthersClose(v: Live, c: Command, v': Live)
    requires LiveStep(v, c, v') && !IsVerb(c)
    ensures v'.log.closed == v.log.closed && (!c.Restart? ==> v'.current == v.current)
  {
    if c.MasterAction? {
      var after, rec, inserted := MasterStepParts(v, c.touches, v');
    } else if c.CancelActions? {
      var recs, inserted :| CancelStepBy(v, v', recs, inserted);
      CancelledAllCloses(v, recs, inserted);
    }
  }

  lemma {:induction false} CancelledAllCloses(v: Live, recs: seq<Record>, inserted: seq<bool>)
    requires |recs| == |inserted|
    ensures var v' := CancelledAll(v, recs, inserted); v'.log.closed == v.log.closed && v'.current == v.current
  {
    if recs != [] { CancelledAllCloses(v, recs[..|recs| - 1], inserted[..|recs| - 1]); }
  }

  // ---------------------------------------------------------------- runs

  ghost predicate HeldIs(held: TurnWrites, w: World, commands: seq<Command>, t: Id) {
    held.masterActions == Masters(w, commands, t) && held.cancelledActions == Cancels(w, commands, t)
  }

  lemma {:induction false} AcceptedIsWhatWasMade(sheets: map<Id, Bars>, mapped: bool, birthUp: bool,
      commands: seq<Command>, t: Id)
    ensures var g := Genesis(sheets, mapped, birthUp); HeldIs(Held(Run(g, commands).log.accepted, t), g, commands, t)
  {
    if commands != [] {
      var n := |commands| - 1;
      AcceptedIsWhatWasMade(sheets, mapped, birthUp, commands[..n], t);
      StepAccepts(Run(Genesis(sheets, mapped, birthUp), commands[..n]), commands[n], t);
    } else {
      GenesisLive(sheets, mapped, birthUp);
      assert LiveOf(Genesis(sheets, mapped, birthUp)).log.accepted == map[];
    }
  }

  lemma {:induction false} ClosedIsWhatWasSeen(sheets: map<Id, Bars>, mapped: bool, birthUp: bool,
      commands: seq<Command>)
    ensures var g := Genesis(sheets, mapped, birthUp); Run(g, commands).log.closed == Closings(g, commands)
  {
    var g := Genesis(sheets, mapped, birthUp);
    if commands != [] {
      var n := |commands| - 1;
      var before := Run(g, commands[..n]);
      ClosedIsWhatWasSeen(sheets, mapped, birthUp, commands[..n]);
      GenesisTurns(sheets, mapped, birthUp);
      RunTurns(g, commands[..n]);
      StepLive(before, commands[n]);
      StepCloses(LiveOf(before), commands[n], LiveOf(Run(g, commands)));
    } else {
      GenesisLive(sheets, mapped, birthUp);
      assert LiveOf(g).log.closed == [];
    }
  }

  /** Over any run: the turns seen to close are, in order and without repetition, the turns of the
      PersistTurnClose calls; each call carries exactly the master actions and the cancellations made while its
      turn was open, in order; and those records are on disk, in that order, iff the turn is. */
  lemma InsideTurnsIsAtomic(sheets: map<Id, Bars>, mapped: bool, birthUp: bool, commands: seq<Command>, t: Id)
    ensures var g := Genesis(sheets, mapped, birthUp);
      var w, closed := Run(g, commands), Closings(g, commands);
      && |w.log.attempts| == |closed|
      && (forall i :: 0 <= i < |closed| ==> w.log.attempts[i].turn == closed[i])
      && (forall i, j :: 0 <= i < j < |closed| ==> closed[i] != closed[j])
      && (forall i :: 0 <= i < |closed| ==> HeldIs(w.log.attempts[i].held, g, commands, closed[i]))
      && OfTurn(w.disk.masterActions, t) == (if t in w.disk.turns then Masters(g, commands, t) else [])
      && OfTurn(w.disk.cancelledActions, t) == (if t in w.disk.turns then Cancels(g, commands, t) else [])
      && (t in w.disk.turns ==> t in closed)
  {
    var g := Genesis(sheets, mapped, birthUp);
    var w, closed := Run(g, commands), Closings(g, commands);
    GenesisTurns(sheets, mapped, birthUp);
    RunTurns(g, commands);
    ClosedIsWhatWasSeen(sheets, mapped, birthUp, commands);
    AcceptedIsWhatWasMade(sheets, mapped, birthUp, commands, t);
    assert TurnRowsMatch(LiveOf(w), t);
    forall i | 0 <= i < |closed| ensures HeldIs(w.log.attempts[i].held, g, commands, closed[i]) {
      AcceptedIsWhatWasMade(sheets, mapped, birthUp, commands, closed[i]);
    }
  }

  /** What is held is held for the open turn alone, and it is every record made in it so far. */
  lemma OnlyTheOpenTurnHolds(sheets: map<Id, Bars>, mapped: bool, birthUp: bool, commands: seq<Command>, t: Id)
    ensures var g := Genesis(sheets, mapped, birthUp);
      var w := Run(g, commands);
      && (t in w.pending ==> OpenIs(w.s, t))
      && (OpenIs(w.s, t) ==> HeldIs(Held(w.pending, t), g, commands, t))
  {
    GenesisTurns(sheets, mapped, birthUp);
    RunTurns(Genesis(sheets, mapped, birthUp), commands);
    AcceptedIsWhatWasMade(sheets, mapped, birthUp, commands, t);
  }
}
