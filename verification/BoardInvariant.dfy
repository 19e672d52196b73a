/** The board row never shows what happens inside a turn before that turn is closed and written.
    Granularity: commands. */
module BoardInvariant {
  import opened Prelude
  import opened Store
  import opened Session
  import opened RoomSpec
  import opened LiveView
  import opened TurnInvariant
  import opened TurnLog

  /** Every change in b was made between turns or in one of turns. */
  ghost predicate MadeIn(b: Board, turns: set<Id>) {
    forall i :: 0 <= i < |b| && b[i].turn.Some? ==> b[i].turn.value in turns
  }

  function Closed(v: Live): set<Id> { set t | t in v.log.closed }

  function OpenOrClosed(v: Live): set<Id> { Closed(v) + if v.current.Some? then {v.current.value} else {} }

  /** The row is the board as it was some changes ago, with changes of closed turns only. */
  ghost predicate BoardInv(v: Live) {
    && MadeIn(v.board, OpenOrClosed(v))
    && (v.boardRow.Some? ==> v.boardRow.value <= v.board && MadeIn(v.boardRow.value, Closed(v)))
  }

  /** The close's own changes, as the board has them when the turn is written. */
  function Closing(v: Live, b: Verb): Board {
    v.board + if v.current.Some? && b.escapes then [Change(b.nextId, v.current)] else []
  }

  /** The opened turn's own change comes only after the closed turn's write. */
  ghost predicate Announced(v: Live, b: Verb, board: Board) {
    board == Closing(v, b) || (b.opens && exists i: Id :: board == Closing(v, b) + [Change(i, Some(v.nextId))])
  }

  lemma VerbBoard(v: Live, b: Verb, v': Live)
    requires Carries(v, b, v')
    ensures v'.boardRow == if v.current.Some? && b.ok && v.mapped then Some(Closing(v, b)) else v.boardRow
    ensures Announced(v, b, v'.board)
  {
    var before := BeforeWrite(v, b);
    BeforeWriteFields(v, b);
    assert before.board == Closing(v, b);
    if b.opens && b.moves {
      assert v'.board == Closing(v, b) + [Change(before.nextId, Some(v.nextId))];
    }
  }

  lemma AnnouncedMadeIn(v: Live, b: Verb, board: Board, closed: set<Id>)
    requires MadeIn(v.board, closed) && Announced(v, b, board) && (v.current.Some? ==> v.current.value in closed)
    ensures MadeIn(Closing(v, b), closed)
    ensures MadeIn(board, closed + if b.opens then {v.nextId} else {})
    ensures v.board <= Closing(v, b) <= board
  {
  }

  lemma VerbKeepsBoard(v: Live, b: Verb, v': Live)
    requires Carries(v, b, v') && BoardInv(v)
    ensures BoardInv(v')
  {
    VerbBoard(v, b, v');
    VerbClosed(v, b, v');
    AnnouncedMadeIn(v, b, v'.board, Closed(v'));
  }

  lemma VerbClosed(v: Live, b: Verb, v': Live)
    requires Carries(v, b, v')
    ensures Closed(v') == OpenOrClosed(v)
    ensures v'.current == if b.opens then Some(v.nextId) else None
    ensures v'.turns == if v.current.Some? && b.ok then v.turns + {v.current.value} else v.turns
  {
    if v.current.Some? { ClosingVerbFields(v, b, v'); } else { IdleVerbFields(v, b, v'); }
  }

  lemma {:induction false} CancelledAllBoard(v: Live, recs: seq<Record>, inserted: seq<bool>)
    requires |recs| == |inserted|
    ensures var v' := CancelledAll(v, recs, inserted);
      && v'.current == v.current && v'.board == v.board && v'.boardRow == v.boardRow
      && v'.turns == v.turns && v'.log.closed == v.log.closed
  {
    if recs != [] { CancelledAllBoard(v, recs[..|recs| - 1], inserted[..|recs| - 1]); }
  }

  lemma SavedKeepsBoard(v: Live, after: Live)
    requires BoardInv(v)
    requires after == v.(nextId := after.nextId, board := after.board, boardRow := after.boardRow)
    requires after.board == v.board || after.board == v.board + [Change(v.nextId, v.current)]
    requires after.boardRow == v.boardRow || (v.current.None? && after.boardRow == Some(after.board))
    ensures BoardInv(after)
  {
  }

  lemma MasterKeepsBoard(v: Live, touches: bool, v': Live)
    requires BoardInv(v) && MasterStep(v, touches, v')
    ensures BoardInv(v')
  {
    var after, rec, inserted := MasterStepParts(v, touches, v');
    SavedKeepsBoard(v, after);
    RecordedKeepsBoard(after, rec, inserted);
  }

  lemma RecordedKeepsBoard(v: Live, rec: Record, inserted: bool)
    requires BoardInv(v)
    ensures BoardInv(MasterRecorded(v, rec, inserted))
  {
  }

  lemma StepBoard(v: Live, c: Command, v': Live)
    requires BoardInv(v) && LiveStep(v, c, v')
    ensures BoardInv(v')
  {
    if v' == v {
    } else if IsVerb(c) {
      var b: Verb :| b.hits == c.hits && Carries(v, b, v');
      VerbKeepsBoard(v, b, v');
    } else if c.MasterAction? {
      MasterKeepsBoard(v, c.touches, v');
    } else if c.CancelActions? {
      var recs, inserted :| CancelStepBy(v, v', recs, inserted);
      CancelledAllBoard(v, recs, inserted);
    }
  }

  lemma {:induction false} RunBoard(w: World, commands: seq<Command>)
    requires BoardInv(LiveOf(w))
    ensures BoardInv(LiveOf(Run(w, commands)))
  {
    if commands != [] {
      var before := Run(w, commands[..|commands| - 1]);
      RunBoard(w, commands[..|commands| - 1]);
      StepLive(before, commands[|commands| - 1]);
      StepBoard(LiveOf(before), commands[|commands| - 1], LiveOf(Run(w, commands)));
    }
  }

  // ---------------------------------------------------------------- what one close does to it

  /** What a close makes of a board: its own change first, if it makes one; then, under the opened turn, that
      turn's, if it makes one. */
  ghost predicate BoardAfter(was: Board, closed: Id, escapes: bool, next: Option<Id>, moves: bool, now: Board) {
    var own := if escapes then 1 else 0;
    && |now| == |was| + own + (if next.Some? && moves then 1 else 0)
    && was <= now
    && (escapes ==> now[|was|].turn == Some(closed))
    && (next.Some? && moves ==> now[|was| + own].turn == next)
  }

  lemma VerbBoardAfter(v: Live, b: Verb, v': Live)
    requires Carries(v, b, v') && v.current.Some?
    ensures BoardAfter(v.board, v.current.value, b.escapes, if b.opens then Some(v.nextId) else None, b.moves, v'.board)
    ensures v'.boardRow ==
      if b.ok && v.mapped then Some(v'.board[..|v.board| + if b.escapes then 1 else 0]) else v.boardRow
  {
    var closing := Closing(v, b);
    BeforeWriteFields(v, b);
    assert BeforeWrite(v, b).board == closing;
    VerbBoard(v, b, v');
    assert v'.board == closing + if b.opens && b.moves then [Change(BeforeWrite(v, b).nextId, Some(v.nextId))] else [];
    assert v'.board[..|closing|] == closing;
  }

  /** A close, exactly: its own change to the board is made first; then, if it commits, the board as it stands is
      the row, and otherwise the row stays; and only after that is the opened turn's change made. */
  lemma CloseSavesTheBoard(w: World, c: Command)
    requires IsVerb(c) && Closes(w, c) && w.s.current.value !in w.disk.turns
    ensures var w' := Step(w, c);
      && BoardAfter(w.board, w.s.current.value, c.escapes, OpenTurn(w'.s), !c.CloseTurn? && c.moves, w'.board)
      && w'.disk.board ==
         if w.mapped && w.s.current.value in w'.disk.turns
         then Some(w'.board[..|w.board| + if c.escapes then 1 else 0]) else w.disk.board
  {
    var b := VerbLive(w, c);
    VerbBoardAfter(LiveOf(w), b, LiveOf(Step(w, c)));
    VerbClosed(LiveOf(w), b, LiveOf(Step(w, c)));
  }

  lemma IdleBoardAfter(v: Live, b: Verb, v': Live)
    requires Carries(v, b, v') && v.current.None?
    ensures BoardAfter(v.board, 0, false, if b.opens then Some(v.nextId) else None, b.moves, v'.board)
    ensures v'.boardRow == v.boardRow
  {
    BeforeWriteFields(v, b);
    VerbBoard(v, b, v');
    assert BeforeWrite(v, b).board == v.board;
  }

  /** With no turn to close, a verb makes the opened turn's change and writes no board. */
  lemma OpeningMovesTheBoard(w: World, c: Command)
    requires (c.OpenNext? || (c.Pull? && !c.blocked)) && !w.s.HasOpenTurn()
    ensures var w' := Step(w, c);
      && BoardAfter(w.board, 0, false, OpenTurn(w'.s), c.moves, w'.board)
      && w'.disk.board == w.disk.board
  {
    if c.OpenNext? {
      var b := OpenNextLive(w, c);
      IdleBoardAfter(LiveOf(w), b, LiveOf(Step(w, c)));
      VerbClosed(LiveOf(w), b, LiveOf(Step(w, c)));
    } else {
      var b := PullLive(w, c);
      IdleBoardAfter(LiveOf(w), b, LiveOf(Step(w, c)));
      VerbClosed(LiveOf(w), b, LiveOf(Step(w, c)));
    }
  }

  // ---------------------------------------------------------------- runs, with every write or not

  /** The database answered every close. */
  ghost predicate EveryCloseUp(commands: seq<Command>) {
    forall i :: 0 <= i < |commands| && IsVerb(commands[i]) ==> commands[i].turnUp
  }

  lemma StepTurnsStay(v: Live, c: Command, v': Live)
    requires LiveStep(v, c, v')
    ensures v.turns <= v'.turns
    ensures v'.current != v.current && !c.Restart? ==> IsVerb(c)
  {
    if v' == v {
    } else if IsVerb(c) {
      var b: Verb :| b.hits == c.hits && Carries(v, b, v');
      VerbClosed(v, b, v');
    } else if c.MasterAction? {
      var after, rec, inserted := MasterStepParts(v, c.touches, v');
    } else if c.CancelActions? {
      var recs, inserted :| CancelStepBy(v, v', recs, inserted);
      CancelledAllBoard(v, recs, inserted);
    }
  }

  lemma RefusedChangesNothing(w: World, c: Command)
    requires IsVerb(c) && w.s.HasOpenTurn() && !Closes(w, c)
    ensures Step(w, c).s == w.s
  {
  }

  lemma {:induction false} EveryClosedTurnIsWritten(sheets: map<Id, Bars>, mapped: bool, birthUp: bool,
      commands: seq<Command>, t: Id)
    requires EveryCloseUp(commands)
    ensures var g := Genesis(sheets, mapped, birthUp);
      t in Closings(g, commands) ==> t in Run(g, commands).disk.turns
  {
    if commands != [] {
      var g := Genesis(sheets, mapped, birthUp);
      var n := |commands| - 1;
      var before, c := Run(g, commands[..n]), commands[n];
      EveryClosedTurnIsWritten(sheets, mapped, birthUp, commands[..n], t);
      StepLive(before, c);
      StepTurnsStay(LiveOf(before), c, LiveOf(Step(before, c)));
      CloseCommitsIffUp(sheets, mapped, birthUp, commands[..n], c);
      if IsVerb(c) && before.s.HasOpenTurn() && !Closes(before, c) { RefusedChangesNothing(before, c); }
    }
  }

  /** Over any run: the board row holds no change of the turn that is open, only changes of turns that were seen
      to close or made between turns, and it is the board in memory less its latest changes. If the database
      answered every close, every turn it shows is itself on disk. */
  lemma TheRowWaitsForTheTurn(sheets: map<Id, Bars>, mapped: bool, birthUp: bool, commands: seq<Command>)
    ensures var g := Genesis(sheets, mapped, birthUp);
      var w := Run(g, commands);
      w.disk.board.Some? ==>
        && w.disk.board.value <= w.board
        && forall i :: 0 <= i < |w.disk.board.value| && w.disk.board.value[i].turn.Some? ==>
             var t := w.disk.board.value[i].turn;
             && t != OpenTurn(w.s) && t.value in Closings(g, commands)
             && (EveryCloseUp(commands) ==> t.value in w.disk.turns)
  {
    var g := Genesis(sheets, mapped, birthUp);
    GenesisLive(sheets, mapped, birthUp);
    RunBoard(g, commands);
    GenesisTurns(sheets, mapped, birthUp);
    RunTurns(g, commands);
    ClosedIsWhatWasSeen(sheets, mapped, birthUp, commands);
    if EveryCloseUp(commands) {
      forall t | t in Closings(g, commands) ensures t in Run(g, commands).disk.turns {
        EveryClosedTurnIsWritten(sheets, mapped, birthUp, commands, t);
      }
    }
  }
}
