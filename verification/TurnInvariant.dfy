/** What happens inside a turn is durable with that turn's close or not at all, and every turn the
    session closes is written at most once and tried exactly once. Granularity: commands. */
module TurnInvariant {
  import opened Prelude
  import opened Store
  import opened Session
  import opened RoomSpec
  import opened RoundInvariant
  import opened RoundRuns
  import opened LiveView

  /** The records of one turn among rows, in row order. */
  function OfTurn(rows: seq<Record>, t: Id): seq<Record> {
    if rows == [] then []
    else
      var rest := OfTurn(rows[..|rows| - 1], t);
      if rows[|rows| - 1].turn == Some(t) then rest + [rows[|rows| - 1]] else rest
  }

  predicate AllOf(rows: seq<Record>, t: Option<Id>) {
    forall i :: 0 <= i < |rows| ==> rows[i].turn == t
  }

  lemma {:induction false} OfTurnSplits(a: seq<Record>, b: seq<Record>, t: Id)
    ensures OfTurn(a + b, t) == OfTurn(a, t) + OfTurn(b, t)
  {
    if b == [] {
      assert a + b == a;
    } else {
      var n := |b| - 1;
      OfTurnSplits(a, b[..n], t);
      assert (a + b)[..|a + b| - 1] == a + b[..n];
    }
  }

  lemma {:induction false} OfTurnUniform(rows: seq<Record>, u: Option<Id>, t: Id)
    requires AllOf(rows, u)
    ensures OfTurn(rows, t) == if u == Some(t) then rows else []
  {
    if rows != [] {
      OfTurnUniform(rows[..|rows| - 1], u, t);
      assert rows[..|rows| - 1] + [rows[|rows| - 1]] == rows;
    }
  }

  // ---------------------------------------------------------------- the invariant

  /** Turn ids grow as turns close, and the open turn's is later than all of them. */
  ghost predicate TurnsOrdered(v: Live) {
    && (forall i, j :: 0 <= i < j < |v.log.closed| ==> v.log.closed[i] < v.log.closed[j])
    && (forall i :: 0 <= i < |v.log.closed| ==> v.log.closed[i] < v.nextId)
    && (v.current.Some? ==> v.current.value < v.nextId)
    && (v.current.Some? ==> forall i :: 0 <= i < |v.log.closed| ==> v.log.closed[i] < v.current.value)
    && (forall t :: t in v.turns ==> t in v.log.closed)
  }

  /** One attempt a closed turn, in order, each carrying what was accepted while that turn was open. */
  ghost predicate AttemptsMatch(v: Live) {
    && |v.log.attempts| == |v.log.closed|
    && (forall i :: 0 <= i < |v.log.attempts| ==> v.log.attempts[i].turn == v.log.closed[i])
    && (forall i :: 0 <= i < |v.log.attempts| ==> v.log.attempts[i].held == Held(v.log.accepted, v.log.closed[i]))
  }

  /** Records are held for the open turn only, and held is everything accepted for it. */
  ghost predicate HeldMatch(v: Live) {
    && (forall t :: t in v.pending ==> v.current == Some(t))
    && (v.current.Some? ==> Held(v.pending, v.current.value) == Held(v.log.accepted, v.current.value))
    && (forall t :: t in v.log.accepted ==>
          t < v.nextId && AllOf(v.log.accepted[t].masterActions, Some(t))
            && AllOf(v.log.accepted[t].cancelledActions, Some(t)))
  }

  /** What was accepted in a turn is on disk, in order, if the turn is; otherwise none of it is. */
  ghost predicate RowsMatch(v: Live) {
    forall t :: TurnRowsMatch(v, t)
  }

  ghost predicate TurnRowsMatch(v: Live, t: Id) {
    && OfTurn(v.masterActions, t) == (if t in v.turns then Held(v.log.accepted, t).masterActions else [])
    && OfTurn(v.cancelledActions, t) == (if t in v.turns then Held(v.log.accepted, t).cancelledActions else [])
  }

  ghost predicate TurnInv(v: Live) {
    TurnsOrdered(v) && AttemptsMatch(v) && HeldMatch(v) && RowsMatch(v)
  }

  // ---------------------------------------------------------------- the verbs

  lemma BeforeWriteFields(v: Live, b: Verb)
    ensures var before := BeforeWrite(v, b);
      && before == v.(current := before.current, mem := before.mem, nextId := before.nextId,
            board := before.board, log := before.log)
      && before.current == (if b.opens then Some(v.nextId) else None)
      && b.nextId <= before.nextId
      && before.log == if v.current.Some? then v.log.(closed := v.log.closed + [v.current.value]) else v.log
  {
  }

  /** The fields a verb moves, apart from sheets and board, when no turn is open. */
  lemma IdleVerbFields(v: Live, b: Verb, v': Live)
    requires Carries(v, b, v') && v.current.None?
    ensures v' == v.(current := v'.current, nextId := v'.nextId, board := v'.board)
    ensures v'.current == (if b.opens then Some(v.nextId) else None)
    ensures v.nextId <= v'.nextId && (b.opens ==> v.nextId < v'.nextId)
  {
  }

  /** And when one is. */
  lemma ClosingVerbFields(v: Live, b: Verb, v': Live)
    requires Carries(v, b, v') && v.current.Some?
    ensures v'.log.accepted == v.log.accepted
    ensures v'.current == (if b.opens then Some(v.nextId) else None)
    ensures v.nextId <= v'.nextId && (b.opens ==> v.nextId < v'.nextId)
    ensures var t := v.current.value;
      && v'.log.closed == v.log.closed + [t] && v'.log.attempts == v.log.attempts + [b.data]
      && v'.pending == v.pending - {t}
      && b.data.turn == t && b.data.held == Held(v.pending, t)
      && v'.turns == (if b.ok then v.turns + {t} else v.turns)
      && v'.masterActions == (if b.ok then v.masterActions + b.data.held.masterActions else v.masterActions)
      && v'.cancelledActions == (if b.ok then v.cancelledActions + b.data.held.cancelledActions else v.cancelledActions)
  {
  }

  lemma VerbOrder(v: Live, b: Verb, v': Live)
    requires Carries(v, b, v') && TurnsOrdered(v)
    ensures TurnsOrdered(v')
    ensures v.current.Some? ==> v.current.value !in v.turns
  {
    if v.current.Some? { ClosingVerbFields(v, b, v'); } else { IdleVerbFields(v, b, v'); }
  }

  lemma VerbAttempts(v: Live, b: Verb, v': Live)
    requires Carries(v, b, v') && AttemptsMatch(v) && HeldMatch(v)
    ensures AttemptsMatch(v')
  {
    if v.current.Some? { ClosingVerbFields(v, b, v'); } else { IdleVerbFields(v, b, v'); }
  }

  lemma VerbHeld(v: Live, b: Verb, v': Live)
    requires Carries(v, b, v') && HeldMatch(v)
    ensures HeldMatch(v')
  {
    if v.current.Some? { ClosingVerbFields(v, b, v'); } else { IdleVerbFields(v, b, v'); }
    assert v'.current.Some? ==> v.nextId !in v.log.accepted;
  }

  /** The rows of turn t once what was held for the closed turn is appended. */
  lemma DrainedRows(v: Live, closed: Id, ok: bool, v': Live, t: Id)
    requires TurnRowsMatch(v, t) && closed !in v.turns && v'.log.accepted == v.log.accepted
    requires AllOf(Held(v.log.accepted, closed).masterActions, Some(closed))
      && AllOf(Held(v.log.accepted, closed).cancelledActions, Some(closed))
    requires v'.turns == (if ok then v.turns + {closed} else v.turns)
    requires v'.masterActions == (if ok then v.masterActions + Held(v.log.accepted, closed).masterActions
      else v.masterActions)
    requires v'.cancelledActions ==
      (if ok then v.cancelledActions + Held(v.log.accepted, closed).cancelledActions else v.cancelledActions)
    ensures TurnRowsMatch(v', t)
  {
    var held := Held(v.log.accepted, closed);
    OfTurnSplits(v.masterActions, held.masterActions, t);
    OfTurnSplits(v.cancelledActions, held.cancelledActions, t);
    OfTurnUniform(held.masterActions, Some(closed), t);
    OfTurnUniform(held.cancelledActions, Some(closed), t);
  }

  lemma VerbRows(v: Live, b: Verb, v': Live)
    requires Carries(v, b, v') && TurnsOrdered(v) && HeldMatch(v) && RowsMatch(v)
    ensures RowsMatch(v')
  {
    if v.current.Some? {
      ClosingVerbFields(v, b, v');
      assert v.current.value !in v.turns;
      forall t ensures TurnRowsMatch(v', t) { DrainedRows(v, v.current.value, b.ok, v', t); }
    } else {
      IdleVerbFields(v, b, v');
      forall t ensures TurnRowsMatch(v', t) { assert TurnRowsMatch(v, t); }
    }
  }

  lemma VerbKeepsTurns(v: Live, b: Verb, v': Live)
    requires Carries(v, b, v') && TurnInv(v)
    ensures TurnInv(v')
  {
    VerbOrder(v, b, v');
    VerbAttempts(v, b, v');
    VerbHeld(v, b, v');
    VerbRows(v, b, v');
  }

  // ---------------------------------------------------------------- the records

  lemma HoldKeepsTurns(v: Live, held: TurnWrites, accepted: TurnWrites, v': Live)
    requires TurnInv(v) && v.current.Some? && held == accepted
    requires AllOf(accepted.masterActions, v.current) && AllOf(accepted.cancelledActions, v.current)
    requires v' == v.(pending := v.pending[v.current.value := held],
      log := v.log.(accepted := v.log.accepted[v.current.value := accepted]))
    ensures TurnInv(v')
  {
    assert v.current.value !in v.turns;
    forall i | 0 <= i < |v'.log.attempts| ensures v'.log.attempts[i].held == Held(v'.log.accepted, v'.log.closed[i]) {
      assert v.log.closed[i] != v.current.value;
    }
    forall t ensures TurnRowsMatch(v', t) { assert TurnRowsMatch(v, t); }
  }

  lemma InsertKeepsTurns(v: Live, rec: Record, master: bool, v': Live)
    requires TurnInv(v) && rec.turn.None?
    requires v' == if master then v.(masterActions := v.masterActions + [rec])
      else v.(cancelledActions := v.cancelledActions + [rec])
    ensures TurnInv(v')
  {
    forall t ensures TurnRowsMatch(v', t) {
      assert TurnRowsMatch(v, t);
      OfTurnSplits(v.masterActions, [rec], t);
      OfTurnSplits(v.cancelledActions, [rec], t);
      OfTurnUniform([rec], None, t);
    }
  }

  lemma MasterRecordedKeeps(v: Live, rec: Record, inserted: bool)
    requires TurnInv(v) && rec.turn == v.current
    ensures TurnInv(MasterRecorded(v, rec, inserted))
  {
    if rec.turn.Some? {
      var held := Held(v.pending, rec.turn.value);
      var more := held.(masterActions := held.masterActions + [rec]);
      HoldKeepsTurns(v, more, more, MasterRecorded(v, rec, inserted));
    } else if inserted {
      InsertKeepsTurns(v, rec, true, MasterRecorded(v, rec, inserted));
    }
  }

  lemma CancelRecordedKeeps(v: Live, rec: Record, inserted: bool)
    requires TurnInv(v) && rec.turn == v.current
    ensures TurnInv(CancelRecorded(v, rec, inserted)) && CancelRecorded(v, rec, inserted).current == v.current
  {
    if rec.turn.Some? {
      var held := Held(v.pending, rec.turn.value);
      var more := held.(cancelledActions := held.cancelledActions + [rec]);
      HoldKeepsTurns(v, more, more, CancelRecorded(v, rec, inserted));
    } else if inserted {
      InsertKeepsTurns(v, rec, false, CancelRecorded(v, rec, inserted));
    }
  }

  lemma {:induction false} CancelledAllKeeps(v: Live, recs: seq<Record>, inserted: seq<bool>)
    requires TurnInv(v) && |recs| == |inserted| && forall i :: 0 <= i < |recs| ==> recs[i].turn == v.current
    ensures TurnInv(CancelledAll(v, recs, inserted)) && CancelledAll(v, recs, inserted).current == v.current
  {
    if recs != [] {
      var n := |recs| - 1;
      CancelledAllKeeps(v, recs[..n], inserted[..n]);
      CancelRecordedKeeps(CancelledAll(v, recs[..n], inserted[..n]), recs[n], inserted[n]);
    }
  }

  /** A later clock, a different board, different sheets: nothing the invariant reads. */
  lemma OthersKeepTurns(v: Live, v': Live)
    requires TurnInv(v) && v.nextId <= v'.nextId
    requires v'.current == v.current && v'.pending == v.pending && v'.log == v.log && v'.turns == v.turns
    requires v'.masterActions == v.masterActions && v'.cancelledActions == v.cancelledActions
    ensures TurnInv(v')
  {
    forall t ensures TurnRowsMatch(v', t) { assert TurnRowsMatch(v, t); }
  }

  lemma RebornKeepsTurns(v: Live, nextId: Id)
    requires TurnInv(v) && v.nextId <= nextId
    ensures TurnInv(Reborn(v, nextId))
  {
    forall t ensures TurnRowsMatch(Reborn(v, nextId), t) { assert TurnRowsMatch(v, t); }
  }

  lemma MasterStepParts(v: Live, touches: bool, v': Live) returns (after: Live, rec: Record, inserted: bool)
    requires MasterStep(v, touches, v')
    ensures v' == MasterRecorded(after, rec, inserted) && rec.turn == v.current
    ensures after == v.(nextId := after.nextId, board := after.board, boardRow := after.boardRow)
      && v.nextId <= after.nextId
    ensures after.board == v.board || (touches && after.board == v.board + [Change(v.nextId, v.current)])
    ensures after.boardRow == v.boardRow || (v.current.None? && v.mapped && after.boardRow == Some(after.board))
  {
    var ins, saved, scene, round :| MasterStepBy(v, touches, v', ins, saved, scene, round);
    var touched := Touched(v, v.current, touches);
    after := (if saved then touched.(boardRow := Some(touched.board)) else touched).(nextId := touched.nextId + 1);
    rec := Record(touched.nextId, scene, round, v.current);
    inserted := ins;
  }

  lemma MasterStepKeeps(v: Live, touches: bool, v': Live)
    requires TurnInv(v) && MasterStep(v, touches, v')
    ensures TurnInv(v')
  {
    var after, rec, inserted := MasterStepParts(v, touches, v');
    OthersKeepTurns(v, after);
    MasterRecordedKeeps(after, rec, inserted);
  }

  lemma StepTurns(v: Live, c: Command, v': Live)
    requires TurnInv(v) && LiveStep(v, c, v')
    ensures TurnInv(v')
  {
    if v' == v {
    } else if IsVerb(c) {
      var b: Verb :| b.hits == c.hits && Carries(v, b, v');
      VerbKeepsTurns(v, b, v');
    } else if c.MasterAction? {
      MasterStepKeeps(v, c.touches, v');
    } else if c.CancelActions? {
      var recs, inserted :| CancelStepBy(v, v', recs, inserted);
      CancelledAllKeeps(v, recs, inserted);
    } else if c.Restart? {
      RebornKeepsTurns(v, v'.nextId);
    } else {
      OthersKeepTurns(v, v');
    }
  }

  // ---------------------------------------------------------------- runs

  lemma {:induction false} RunTurns(w: World, commands: seq<Command>)
    requires TurnInv(LiveOf(w))
    ensures TurnInv(LiveOf(Run(w, commands)))
  {
    if commands != [] {
      var before := Run(w, commands[..|commands| - 1]);
      RunTurns(w, commands[..|commands| - 1]);
      StepLive(before, commands[|commands| - 1]);
      StepTurns(LiveOf(before), commands[|commands| - 1], LiveOf(Run(w, commands)));
    }
  }

  lemma GenesisTurns(sheets: map<Id, Bars>, mapped: bool, birthUp: bool)
    ensures TurnInv(LiveOf(Genesis(sheets, mapped, birthUp)))
  {
  }

  /** The database's own validation never refuses a turn close the room builds: a close is lost only
      when the database does not answer. */
  lemma CloseCommitsIffUp(sheets: map<Id, Bars>, mapped: bool, birthUp: bool, commands: seq<Command>, c: Command)
    ensures var w := Run(Genesis(sheets, mapped, birthUp), commands);
      IsVerb(c) && Closes(w, c) ==>
        && w.s.current.value !in w.disk.turns
        && (w.s.current.value in Step(w, c).disk.turns <==> c.turnUp)
  {
    var w := Run(Genesis(sheets, mapped, birthUp), commands);
    GenesisTurns(sheets, mapped, birthUp);
    RunTurns(Genesis(sheets, mapped, birthUp), commands);
    if IsVerb(c) && Closes(w, c) {
      var b := VerbLive(w, c);
      ClosingVerbFields(LiveOf(w), b, LiveOf(Step(w, c)));
      VerbOrder(LiveOf(w), b, LiveOf(Step(w, c)));
      assert ValidEnds(b.data.ends) by {
        GenesisRounds(sheets, mapped, birthUp);
        RunRounds(Genesis(sheets, mapped, birthUp), commands);
      }
    }
  }
}
