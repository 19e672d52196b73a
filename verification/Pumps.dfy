/** The same protocol between lock sections. Granularity: an atomic step is one critical section of the
    room's lock or one database transaction, and any number of read pumps interleave; a pump's local
    variables are its program counter. What holds here holds without the one-master-pump assumption. */
module Pumps {
  import opened Prelude
  import opened Store
  import opened RoomSpec

  /** Where one pump stands. A snapshot it took stays in it while the session moves on. */
  datatype Pump =
    /** ensureSceneAndRoundRows: entered with a snapshot; ends read, write in flight; written. */
    | Reading(sc: SceneSnap, rd: RoundSnap)
    | Ensuring(sc: SceneSnap, rd: RoundSnap, ends: seq<RoundEnd>)
    | Written(rd: RoundSnap, ends: seq<RoundEnd>)
    /** persistRoundClose, then writeRoundClose. */
    | RoundEnding(closed: RoundSnap)
    | Ending(end: RoundEnd, next: RoundSnap)
    | EndWriting(end: RoundEnd, next: RoundSnap, ends: seq<RoundEnd>)
    | EndFailed(end: RoundEnd)
    /** persistClosedTurn: the turn is closed, its records not drained yet; its transaction in flight. */
    | Draining(turn: Id, closedIn: Option<RoundSnap>)
    | TurnWriting(data: TurnClose)
    /** change_scene: the old pair about to be closed; that write failed. */
    | Leaving(end: RoundEnd, sc: SceneSnap, rd: RoundSnap)
    | LeaveFailed(end: RoundEnd, sc: SceneSnap, rd: RoundSnap)

  /** accepted, attempts, closed, ended and forgotten are what an observer notes: the records accepted
      in each turn, the PersistTurnClose calls, the turns closed, the rounds ended, and the rounds whose
      end went into a CloseSceneAndRound that found no row to close. */
  datatype State = State(
    scene: Id, round: Id, scenePersisted: bool, roundPersisted: bool, current: Option<Id>, nextId: Id,
    disk: Disk, ends: seq<RoundEnd>, pending: map<Id, TurnWrites>, pumps: map<nat, Pump>,
    accepted: map<Id, TurnWrites>, attempts: seq<TurnClose>, closed: set<Id>, ended: set<Id>, forgotten: set<Id>)
  {
    function SceneNow(): SceneSnap { SceneSnap(scene, None) }

    function RoundNow(): RoundSnap { RoundSnap(round, Free, None) }
  }

  datatype Move =
    /** Execute of a turn-closing verb: the open turn closes, and a new one may open. */
    | TurnOver(p: nat, opens: bool)
    /** open_next_action finds no action that can still pay: the round ends too. */
    | RoundOver(p: nat, at: Time)
    /** A master action or a cancellation accepted while a turn is open. */
    | Hold(rec: Id, master: bool)
    /** The same, for a turn its caller saw open: nothing is held when that turn is not open any more. */
    | HoldIfOpen(turn: Id, rec: Id, master: bool)
    /** Any path that snapshots the active pair to make it rows. */
    | Snapshot(p: nat)
    | ChangeScene(p: nat, at: Time)
    /** Pump p takes its next step; ok is the database's answer, where the step asks it. */
    | Advance(p: nat, ok: bool)

  // ---------------------------------------------------------------- critical sections

  function Started(s: State, p: nat, q: Pump): State { s.(pumps := s.pumps[p := q]) }

  function Stopped(s: State, p: nat): State { s.(pumps := s.pumps - {p}) }

  function CloseTurnNow(s: State): State {
    if s.current.Some? then s.(current := None, closed := s.closed + {s.current.value}) else s
  }

  function DoTurnOver(s: State, p: nat, opens: bool): State {
    var s1 := CloseTurnNow(s);
    var s2 := if opens then s1.(current := Some(s1.nextId), nextId := s1.nextId + 1) else s1;
    if s.current.Some? then Started(s2, p, Draining(s.current.value, None)) else s2
  }

  function DoRoundOver(s: State, p: nat, at: Time): State {
    var closed := RoundSnap(s.round, Free, Some(at));
    var s1 := CloseTurnNow(s).(round := s.nextId, roundPersisted := false, nextId := s.nextId + 1,
        ended := s.ended + {s.round});
    Started(s1, p, if s.current.Some? then Draining(s.current.value, Some(closed)) else RoundEnding(closed))
  }

  /** The open turn is checked in the same section as the append. */
  function DoHold(s: State, rec: Id, master: bool): State {
    if s.current.None? then s
    else
      var t := s.current.value;
      var r := Record(rec, s.scene, s.round, s.current);
      var held, accepted := Held(s.pending, t), Held(s.accepted, t);
      if master
      then s.(pending := s.pending[t := held.(masterActions := held.masterActions + [r])],
              accepted := s.accepted[t := accepted.(masterActions := accepted.masterActions + [r])])
      else s.(pending := s.pending[t := held.(cancelledActions := held.cancelledActions + [r])],
              accepted := s.accepted[t := accepted.(cancelledActions := accepted.cancelledActions + [r])])
  }

  function DoLeaveScene(s: State, p: nat, at: Time): State {
    if s.current.Some? then s
    else
      var end := RoundEnd(SceneSnap(s.scene, Some(at)), RoundSnap(s.round, Free, Some(at)));
      var s1 := s.(scene := s.nextId, round := s.nextId + 1, scenePersisted := false, roundPersisted := false,
                   nextId := s.nextId + 2, ended := s.ended + {s.round});
      if s.scenePersisted then Started(s1, p, Leaving(end, s1.SceneNow(), s1.RoundNow()))
      else Started(s1.(ends := MarkEnd(s.ends, end)), p, Reading(s1.SceneNow(), s1.RoundNow()))
  }

  /** Forget the ends a committed write carried, and tell the session if the round is still active. */
  function DoWritten(s: State, p: nat, rd: RoundSnap, carried: seq<RoundEnd>): State {
    var told := if s.round == rd.id then s.(scenePersisted := true, roundPersisted := true) else s;
    Stopped(told.(ends := Without(s.ends, EndIds(carried))), p)
  }

  function DoDrain(s: State, p: nat, t: Id, closedIn: Option<RoundSnap>): State {
    var next := if closedIn.Some? && s.round != closedIn.value.id then Some(s.RoundNow()) else None;
    var data := TurnClose(s.SceneNow(), if closedIn.Some? then closedIn.value else s.RoundNow(), t, next, s.ends,
                          Held(s.pending, t), [], None);
    Started(s.(pending := s.pending - {t}), p, TurnWriting(data))
  }

  /** One database transaction of pump p, or the section that reads or updates the room around it. */
  function DoAdvance(s: State, p: nat, ok: bool): State {
    if p !in s.pumps then s
    else match s.pumps[p]
      case Reading(sc, rd) => Started(s, p, Ensuring(sc, rd, s.ends))
      case Ensuring(sc, rd, ends) =>
        if ok then Started(s.(disk := RoundClose(s.disk, ends, sc, rd)), p, Written(rd, ends)) else Stopped(s, p)
      case Written(rd, ends) => DoWritten(s, p, rd, ends)
      case RoundEnding(closed) => Started(s, p, Ending(RoundEnd(s.SceneNow(), closed), s.RoundNow()))
      case Ending(end, next) => Started(s, p, EndWriting(end, next, s.ends + [end]))
      case EndWriting(end, next, ends) =>
        if ok then Started(s.(disk := RoundClose(s.disk, ends, end.scene, next)), p, Written(next, ends))
        else Started(s, p, EndFailed(end))
      case EndFailed(end) => Stopped(s.(ends := MarkEnd(s.ends, end)), p)
      case Draining(t, closedIn) => DoDrain(s, p, t, closedIn)
      case TurnWriting(data) =>
        var tried := s.(attempts := s.attempts + [data]);
        if ok then
          Started(tried.(disk := TurnTx(s.disk, data)), p,
            Written(if data.next.Some? then data.next.value else data.round, data.ends))
        else if data.next.Some? then Started(tried, p, Ending(RoundEnd(data.scene, data.round), data.next.value))
        else Stopped(tried, p)
      case Leaving(end, sc, rd) =>
        if ok then
          Started(s.(disk := ClosePair(s.disk, end.scene.id, end.round.id, Coalesce(end.round.finished, Some(0)).value),
                     forgotten := if end.round.id in s.disk.rounds then s.forgotten else s.forgotten + {end.round.id}),
                  p, Reading(sc, rd))
        else Started(s, p, LeaveFailed(end, sc, rd))
      case LeaveFailed(end, sc, rd) => Started(s.(ends := MarkEnd(s.ends, end)), p, Reading(sc, rd))
  }

  /** A pump starts a command only when it is done with the last. */
  function Moved(s: State, m: Move): State {
    match m
    case TurnOver(p, opens) => if p in s.pumps then s else DoTurnOver(s, p, opens)
    case RoundOver(p, at) => if p in s.pumps then s else DoRoundOver(s, p, at)
    case Hold(rec, master) => DoHold(s, rec, master)
    case HoldIfOpen(turn, rec, master) => if s.current == Some(turn) then DoHold(s, rec, master) else s
    case Snapshot(p) => if p in s.pumps then s else Started(s, p, Reading(s.SceneNow(), s.RoundNow()))
    case ChangeScene(p, at) => if p in s.pumps then s else DoLeaveScene(s, p, at)
    case Advance(p, ok) => DoAdvance(s, p, ok)
  }

  function Played(s: State, moves: seq<Move>): State {
    if moves == [] then s else Moved(Played(s, moves[..|moves| - 1]), moves[|moves| - 1])
  }

  lemma {:induction false} PlayedOn(s: State, a: seq<Move>, b: seq<Move>)
    ensures Played(s, a + b) == Played(Played(s, a), b)
  {
    if b == [] {
      assert a + b == a;
    } else {
      PlayedOn(s, a, b[..|b| - 1]);
      assert (a + b)[..|a + b| - 1] == a + b[..|b| - 1];
    }
  }

  /** Only pump p moved. */
  ghost predicate OthersStay(s: State, s': State, p: nat) {
    forall q :: q != p ==> (q in s'.pumps <==> q in s.pumps) && (q in s.pumps ==> s'.pumps[q] == s.pumps[q])
  }

  /** A session nobody has written anything of. */
  const START: State := State(
    0, 1, false, false, None, 2, Disk(map[], map[], map[], map[], [], [], [], None), [], map[], map[],
    map[], [], {}, {}, {})

  // ---------------------------------------------------------------- what a pump's own steps leave alone

  /** The session's active round and open turn, what it accepted, closed and ended. */
  predicate SameTurn(s: State, s': State) {
    && s'.current == s.current && s'.accepted == s.accepted && s'.closed == s.closed
    && s'.round == s.round && s'.ended == s.ended && s'.nextId == s.nextId
  }

  lemma LeavingMovesNothing(s: State, p: nat, ok: bool)
    requires p in s.pumps && (s.pumps[p].Leaving? || s.pumps[p].LeaveFailed?)
    ensures SameTurn(s, DoAdvance(s, p, ok))
  {
  }

  lemma TurnWritingMovesNoTurn(s: State, p: nat, ok: bool)
    requires p in s.pumps && (s.pumps[p].TurnWriting? || s.pumps[p].Draining?)
    ensures SameTurn(s, DoAdvance(s, p, ok))
  {
  }

  lemma PairWriteMovesNoTurn(s: State, p: nat, ok: bool)
    requires p in s.pumps && (s.pumps[p].Ensuring? || s.pumps[p].EndWriting?)
    ensures SameTurn(s, DoAdvance(s, p, ok))
  {
  }

  lemma AdvanceMovesNoTurn(s: State, p: nat, ok: bool)
    ensures SameTurn(s, DoAdvance(s, p, ok))
  {
    if p in s.pumps {
      var q := s.pumps[p];
      if q.Leaving? || q.LeaveFailed? {
        LeavingMovesNothing(s, p, ok);
      } else if q.TurnWriting? || q.Draining? {
        TurnWritingMovesNoTurn(s, p, ok);
      } else if q.Ensuring? || q.EndWriting? {
        PairWriteMovesNoTurn(s, p, ok);
      }
    }
  }

  lemma {:induction false} RoundIsKnown(moves: seq<Move>)
    ensures Played(START, moves).round < Played(START, moves).nextId
  {
    if moves != [] {
      var s, m := Played(START, moves[..|moves| - 1]), moves[|moves| - 1];
      RoundIsKnown(moves[..|moves| - 1]);
      MovedIsKnown(s, m);
    }
  }

  lemma MovedIsKnown(s: State, m: Move)
    requires s.round < s.nextId
    ensures Moved(s, m).round < Moved(s, m).nextId
  {
    if m.Advance? { AdvanceMovesNoTurn(s, m.p, m.ok); }
  }
}
