/** Hanging a match's regime changes, master actions and cancelled actions on its history tree. */
module Stitch {
  import opened Prelude
  import opened Sight

  datatype ModeChange = ModeChange(id: Id, round: Id, at: Time)
  datatype Recorded = Recorded(id: Id, turn: Option<Id>, round: Id, at: Time, action: MasterRecord)
  datatype Cancelled = Cancelled(id: Id, round: Id, at: Time, actor: Id)

  datatype Cut = NoAction | Declaration | FullAction

  /** One thing shown in a list of the history. */
  datatype Entry = Mode(change: ModeChange) | Master(recorded: Recorded) | Cancel(cancelled: Cancelled, cut: Cut) {
    function At(): Time {
      match this
      case Mode(change) => change.at
      case Master(recorded) => recorded.at
      case Cancel(cancelled, _) => cancelled.at
    }
  }

  datatype Reader = Reader(isMaster: bool, user: Id, owns: set<Id>)

  datatype Place = InRound(round: Id) | InTurn(turn: Id)

  // ---------------------------------------------------------------- where everything belongs

  function Home(turns: set<Id>, x: Entry): Place {
    match x
    case Mode(change) => InRound(change.round)
    case Cancel(cancelled, _) => InRound(cancelled.round)
    case Master(recorded) =>
      if recorded.turn.Some? && recorded.turn.value in turns then InTurn(recorded.turn.value)
          else InRound(recorded.round)
  }

  function CutFor(c: Cancelled, reader: Reader): Cut {
    if reader.isMaster then FullAction else if c.actor in reader.owns then Declaration else NoAction
  }

  function Modes(changes: seq<ModeChange>): seq<Entry> {
      seq(|changes|, i requires 0 <= i < |changes| => Mode(changes[i])) }

  function Cancels(cancelled: seq<Cancelled>, reader: Reader): seq<Entry> {
    seq(|cancelled|, i requires 0 <= i < |cancelled| => Cancel(cancelled[i], CutFor(cancelled[i], reader)))
  }

  /** The master actions this reader can see, each as they saw it live. */
  function Visible(records: seq<Recorded>, reader: Reader): seq<Entry> {
    if records == [] then []
    else
      var last := records[|records| - 1];
      var shown := ProjectFor(last.action, reader.isMaster, reader.user);
      Visible(records[..|records| - 1], reader) + if shown.Some? then [Master(last.(action := shown.value))] else []
  }

  /** Everything there is to show, in source order: regime changes, master actions, cancellations. */
  function Shown(changes: seq<ModeChange>, records: seq<Recorded>, cancelled: seq<Cancelled>,
      reader: Reader): seq<Entry> {
    Modes(changes) + Visible(records, reader) + Cancels(cancelled, reader)
  }

  function Belonging(source: seq<Entry>, turns: set<Id>, place: Place): seq<Entry> {
    if source == [] then []
    else
      var rest := Belonging(source[..|source| - 1], turns, place);
      if Home(turns, source[|source| - 1]) == place then rest + [source[|source| - 1]] else rest
  }

  // ---------------------------------------------------------------- the stable sort

  /** x goes after everything no later than it. */
  function Insert(s: seq<Entry>, x: Entry): seq<Entry> {
    if s == [] || s[|s| - 1].At() <= x.At() then s + [x]
    else Insert(s[..|s| - 1], x) + [s[|s| - 1]]
  }

  function StableSorted(s: seq<Entry>): seq<Entry> {
    if s == [] then [] else Insert(StableSorted(s[..|s| - 1]), s[|s| - 1])
  }

  ghost predicate Sorted(s: seq<Entry>) { forall i, j :: 0 <= i < j < |s| ==> s[i].At() <= s[j].At() }

  /** The entries of one instant, in the order they stand. */
  function AtInstant(s: seq<Entry>, at: Time): seq<Entry> {
    if s == [] then []
    else
      var rest := AtInstant(s[..|s| - 1], at);
      if s[|s| - 1].At() == at then rest + [s[|s| - 1]] else rest
  }

  lemma {:induction false} InstantSplits(a: seq<Entry>, b: seq<Entry>, at: Time)
    ensures AtInstant(a + b, at) == AtInstant(a, at) + AtInstant(b, at)
  {
    if b == [] {
      assert a + b == a;
    } else {
      InstantSplits(a, b[..|b| - 1], at);
      assert (a + b)[..|a + b| - 1] == a + b[..|b| - 1];
    }
  }

  lemma {:induction false} InsertKeeps(s: seq<Entry>, x: Entry)
    ensures multiset(Insert(s, x)) == multiset(s) + multiset{x}
  {
    if !(s == [] || s[|s| - 1].At() <= x.At()) {
      InsertKeeps(s[..|s| - 1], x);
      assert s == s[..|s| - 1] + [s[|s| - 1]];
    }
  }

  lemma {:induction false} InsertSorts(s: seq<Entry>, x: Entry)
    requires Sorted(s)
    ensures Sorted(Insert(s, x))
  {
    if !(s == [] || s[|s| - 1].At() <= x.At()) {
      var init, last := s[..|s| - 1], s[|s| - 1];
      InsertSorts(init, x);
      InsertKeeps(init, x);
      var inner := Insert(init, x);
      forall i | 0 <= i < |inner| ensures inner[i].At() <= last.At() {
        assert inner[i] in multiset(inner);
        assert inner[i] in init || inner[i] == x;
      }
    }
  }

  lemma {:induction false} InsertIsStable(s: seq<Entry>, x: Entry, at: Time)
    ensures AtInstant(Insert(s, x), at) == AtInstant(s, at) + AtInstant([x], at)
  {
    InstantSplits(s, [x], at);
    if !(s == [] || s[|s| - 1].At() <= x.At()) {
      var init, last := s[..|s| - 1], s[|s| - 1];
      InsertIsStable(init, x, at);
      InstantSplits(Insert(init, x), [last], at);
      InstantSplits(init, [last], at);
      assert s == init + [last];
      assert AtInstant([x], at) == [] || AtInstant([last], at) == [];
    }
  }

  /** Sorted by time, nothing added or lost, and ties in source order. */
  lemma {:induction false} SortIsStable(s: seq<Entry>, at: Time)
    ensures var s' := StableSorted(s);
      Sorted(s') && multiset(s') == multiset(s) && AtInstant(s', at) == AtInstant(s, at)
  {
    if s != [] {
      var init, last := s[..|s| - 1], s[|s| - 1];
      SortIsStable(init, at);
      InsertKeeps(StableSorted(init), last);
      InsertSorts(StableSorted(init), last);
      InsertIsStable(StableSorted(init), last, at);
      InstantSplits(init, [last], at);
      assert s == init + [last];
    }
  }

  // ---------------------------------------------------------------- the tree

  /** The lists the history hangs things on: a round's events and a turn's master actions. */
  class Tree {
    var rounds: map<Id, seq<Entry>>
    var turns: map<Id, seq<Entry>>

    constructor (roundIds: set<Id>, turnIds: set<Id>)
      ensures rounds == (map r | r in roundIds :: []) && turns == (map t | t in turnIds :: [])
    {
      rounds := map r | r in roundIds :: [];
      turns := map t | t in turnIds :: [];
    }

    /** Both kinds of list hold exactly what of source belongs there, in source order. */
    ghost predicate Holds(source: seq<Entry>)
      reads this
    {
      && (forall r :: r in rounds ==> rounds[r] == Belonging(source, turns.Keys, InRound(r)))
      && (forall t :: t in turns ==> turns[t] == Belonging(source, turns.Keys, InTurn(t)))
    }

    /** Appends one entry to its list; one whose round is not in the tree is dropped. */
    method Hang(x: Entry, ghost source: seq<Entry>)
      requires Holds(source)
      modifies this
      ensures rounds.Keys == old(rounds.Keys) && turns.Keys == old(turns.Keys)
      ensures Holds(source + [x])
    {
      assert (source + [x])[..|source|] == source;
      match Home(turns.Keys, x) {
        case InTurn(t) => turns := turns[t := turns[t] + [x]];
        case InRound(r) => if r in rounds { rounds := rounds[r := rounds[r] + [x]]; }
      }
    }

    method Stitch(changes: seq<ModeChange>, records: seq<Recorded>, cancelled: seq<Cancelled>, reader: Reader)
      requires Holds([])
      modifies this
      ensures rounds.Keys == old(rounds.Keys) && turns.Keys == old(turns.Keys)
      ensures forall r :: r in rounds ==>
        rounds[r] == StableSorted(Belonging(Shown(changes, records, cancelled, reader), turns.Keys, InRound(r)))
      ensures forall t :: t in turns ==>
        turns[t] == StableSorted(Belonging(Shown(changes, records, cancelled, reader), turns.Keys, InTurn(t)))
    {
      ghost var source: seq<Entry> := [];
      for i := 0 to |changes|
        invariant rounds.Keys == old(rounds.Keys) && turns.Keys == old(turns.Keys)
        invariant source == Modes(changes)[..i] && Holds(source)
      {
        Hang(Mode(changes[i]), source);
        source := source + [Mode(changes[i])];
      }
      for i := 0 to |records|
        invariant rounds.Keys == old(rounds.Keys) && turns.Keys == old(turns.Keys)
        invariant source == Modes(changes) + Visible(records[..i], reader) && Holds(source)
      {
        assert records[..i + 1][..i] == records[..i];
        var proj := ProjectFor(records[i].action, reader.isMaster, reader.user);
        if proj.Some? {
          var x := Master(records[i].(action := proj.value));
          Hang(x, source);
          source := source + [x];
        }
      }
      assert records[..|records|] == records;
      for i := 0 to |cancelled|
        invariant rounds.Keys == old(rounds.Keys) && turns.Keys == old(turns.Keys)
        invariant source == Modes(changes) + Visible(records, reader) + Cancels(cancelled, reader)[..i] && Holds(source)
      {
        var x := Cancel(cancelled[i], CutFor(cancelled[i], reader));
        Hang(x, source);
        source := source + [x];
      }
      assert source == Shown(changes, records, cancelled, reader);
      SortRounds();
      SortTurns();
    }

    method SortRounds()
      modifies this`rounds
      ensures rounds == map r | r in old(rounds) :: StableSorted(old(rounds)[r])
    {
      var todo := rounds.Keys;
      while todo != {}
        invariant todo <= rounds.Keys == old(rounds).Keys
        invariant forall r :: r in rounds ==>
          rounds[r] == if r in todo then old(rounds)[r] else StableSorted(old(rounds)[r])
        decreases |todo|
      {
        var r :| r in todo;
        rounds := rounds[r := StableSorted(rounds[r])];
        todo := todo - {r};
      }
    }

    method SortTurns()
      modifies this`turns
      ensures turns == map t | t in old(turns) :: StableSorted(old(turns)[t])
    {
      var todo := turns.Keys;
      while todo != {}
        invariant todo <= turns.Keys == old(turns).Keys
        invariant forall t :: t in turns ==>
          turns[t] == if t in todo then old(turns)[t] else StableSorted(old(turns)[t])
        decreases |todo|
      {
        var t :| t in todo;
        turns := turns[t := StableSorted(turns[t])];
        todo := todo - {t};
      }
    }
  }

  // ---------------------------------------------------------------- what stitching keeps

  lemma {:induction false} BelongingCounts(source: seq<Entry>, turns: set<Id>, place: Place, x: Entry)
    ensures multiset(Belonging(source, turns, place))[x] == if Home(turns, x) == place then multiset(source)[x] else 0
  {
    if source != [] {
      BelongingCounts(source[..|source| - 1], turns, place, x);
      assert source == source[..|source| - 1] + [source[|source| - 1]];
    }
  }

  /** Conservation: an entry stands in the list of its one home as often as it is in the sources, and in no
      other list; so nothing is added, nothing is lost but what has no home in the tree, and nothing is
      shown twice. */
  lemma EachInExactlyOneList(source: seq<Entry>, turns: set<Id>, place: Place, x: Entry)
    ensures multiset(StableSorted(Belonging(source, turns, place)))[x] == if Home(turns, x) == place
      then multiset(source)[x] else 0
  {
    BelongingCounts(source, turns, place, x);
    SortIsStable(Belonging(source, turns, place), 0);
  }

  lemma {:induction false} BelongingSplits(a: seq<Entry>, b: seq<Entry>, turns: set<Id>, place: Place)
    ensures Belonging(a + b, turns, place) == Belonging(a, turns, place) + Belonging(b, turns, place)
  {
    if b == [] {
      assert a + b == a;
    } else {
      BelongingSplits(a, b[..|b| - 1], turns, place);
      assert (a + b)[..|a + b| - 1] == a + b[..|b| - 1];
    }
  }

  /** Each list is in time order, and within one instant regime changes come before master actions before
      cancellations, each in the order of its table. */
  lemma TiesKeepSourceOrder(
    changes: seq<ModeChange>, records: seq<Recorded>, cancelled: seq<Cancelled>, reader: Reader, turns: set<Id>,
      place: Place, at: Time)
    ensures var list := StableSorted(Belonging(Shown(changes, records, cancelled, reader), turns, place));
      && Sorted(list)
      && AtInstant(list, at) ==
         AtInstant(Belonging(Modes(changes), turns, place), at)
         + AtInstant(Belonging(Visible(records, reader), turns, place), at)
         + AtInstant(Belonging(Cancels(cancelled, reader), turns, place), at)
  {
    var m, v, c := Modes(changes), Visible(records, reader), Cancels(cancelled, reader);
    SortIsStable(Belonging(m + v + c, turns, place), at);
    BelongingSplits(m + v, c, turns, place);
    BelongingSplits(m, v, turns, place);
    InstantSplits(Belonging(m + v, turns, place), Belonging(c, turns, place), at);
    InstantSplits(Belonging(m, turns, place), Belonging(v, turns, place), at);
  }

  /** A turn's list holds master actions of that turn alone; a cancellation is always its round's, even one
      made inside a turn of the tree; and a master action of a turn that was never written falls to its
      round. */
  lemma OnlyItsOwn(source: seq<Entry>, turns: set<Id>, x: Entry, t: Id)
    requires x in StableSorted(Belonging(source, turns, InTurn(t)))
    ensures x.Master? && x.recorded.turn == Some(t) && t in turns
  {
    EachInExactlyOneList(source, turns, InTurn(t), x);
  }

  /** An entry no reader but the master was ever given is never there. */
  lemma {:induction false} UnseenIsAbsent(records: seq<Recorded>, reader: Reader, x: Entry)
    requires x in Visible(records, reader)
    ensures x.Master?
    ensures exists i :: (0 <= i < |records| && records[i].id == x.recorded.id
                         && ProjectFor(records[i].action, reader.isMaster, reader.user) == Some(x.recorded.action))
  {
    var n := |records| - 1;
    if x in Visible(records[..n], reader) {
      UnseenIsAbsent(records[..n], reader, x);
      var i :| 0 <= i < n && records[..n][i].id == x.recorded.id
          && ProjectFor(records[..n][i].action, reader.isMaster, reader.user) == Some(x.recorded.action);
      assert records[i] == records[..n][i];
    } else {
      assert records[n].id == x.recorded.id;
    }
  }

  // ---------------------------------------------------------------- every list, on the records' own fields

  lemma BelongingIff(source: seq<Entry>, turns: set<Id>, place: Place, x: Entry)
    ensures x in StableSorted(Belonging(source, turns, place)) <==> x in source && Home(turns, x) == place
  {
    EachInExactlyOneList(source, turns, place, x);
  }

  /** What a reader may be shown of one record: the master all of it; anyone else what they saw then, without
      who saw what, a piece seen only leaving without its destination, and nothing of what they did not see. */
  predicate ShownAs(r: Recorded, reader: Reader, x: Recorded) {
    && x == r.(action := x.action)
    && if reader.isMaster then x.action == r.action
       else
         && reader.user in r.action.views && x.action.views == map[] && x.action.kind == r.action.kind
         && if r.action.views[reader.user] == Left && r.action.kind in {MovePiece, PlacePiece, RemovePiece} then
              r.action.content.PieceContent? && x.action.content == r.action.content.(to := None)
            else x.action.content == r.action.content
  }

  lemma {:induction false} VisibleIff(records: seq<Recorded>, reader: Reader, x: Entry)
    ensures x in Visible(records, reader) <==>
      x.Master? && exists i :: 0 <= i < |records| && ShownAs(records[i], reader, x.recorded)
  {
    if records != [] {
      var n := |records| - 1;
      var last := records[n];
      VisibleIff(records[..n], reader, x);
      assert forall i :: 0 <= i < n ==> records[..n][i] == records[i];
      var shown := ProjectFor(last.action, reader.isMaster, reader.user);
      assert x.Master? ==>
        (ShownAs(last, reader, x.recorded) <==> shown.Some? && x.recorded == last.(action := shown.value));
      if x.Master? && x in Visible(records[..n], reader) {
        var i :| 0 <= i < n && ShownAs(records[..n][i], reader, x.recorded);
        assert ShownAs(records[i], reader, x.recorded);
      }
    }
  }

  /** A turn's list: exactly the master actions recorded with that turn, each as this reader may be shown it. */
  lemma TurnListIs(
    changes: seq<ModeChange>, records: seq<Recorded>, cancelled: seq<Cancelled>, reader: Reader, turns: set<Id>, t: Id,
      x: Entry)
    requires t in turns
    ensures x in StableSorted(Belonging(Shown(changes, records, cancelled, reader), turns, InTurn(t))) <==>
      x.Master? &&
      exists i :: (0 <= i < |records| && records[i].turn == Some(t) && ShownAs(records[i], reader, x.recorded))
  {
    BelongingIff(Shown(changes, records, cancelled, reader), turns, InTurn(t), x);
    VisibleIff(records, reader, x);
  }

  /** How much of a cancelled action a reader gets: the master all of it, its actor's owner what they
      declared, anyone else only that it was cancelled. */
  predicate CutIs(c: Cancelled, reader: Reader, cut: Cut) {
    && (cut == FullAction <==> reader.isMaster)
    && (cut == Declaration <==> !reader.isMaster && c.actor in reader.owns)
    && (cut == NoAction <==> !reader.isMaster && c.actor !in reader.owns)
  }

  /** A round's list: exactly its regime changes, its cancelled actions — inside a turn or not, each cut for
      the reader — and the master actions of it that have no turn of the tree to stand in. */
  lemma RoundListIs(
    changes: seq<ModeChange>, records: seq<Recorded>, cancelled: seq<Cancelled>, reader: Reader, turns: set<Id>, r: Id,
      x: Entry)
    ensures x in StableSorted(Belonging(Shown(changes, records, cancelled, reader), turns, InRound(r))) <==>
      match x
      case Mode(change) => change in changes && change.round == r
      case Cancel(c, cut) => c in cancelled && c.round == r && CutIs(c, reader, cut)
      case Master(shown) =>
        exists i :: (0 <= i < |records| && records[i].round == r && ShownAs(records[i], reader, shown)
                     && (records[i].turn.None? || records[i].turn.value !in turns))
  {
    BelongingIff(Shown(changes, records, cancelled, reader), turns, InRound(r), x);
    VisibleIff(records, reader, x);
    ModesIff(changes, x);
    CancelsIff(cancelled, reader, x);
  }

  lemma ModesIff(changes: seq<ModeChange>, x: Entry)
    ensures x in Modes(changes) <==> x.Mode? && x.change in changes
  {
    if x.Mode? && x.change in changes {
      var i :| 0 <= i < |changes| && changes[i] == x.change;
      assert Modes(changes)[i] == x;
    }
  }

  lemma CancelsIff(cancelled: seq<Cancelled>, reader: Reader, x: Entry)
    ensures x in Cancels(cancelled, reader) <==>
      x.Cancel? && x.cancelled in cancelled && CutIs(x.cancelled, reader, x.cut)
  {
    if x.Cancel? && x.cancelled in cancelled && CutIs(x.cancelled, reader, x.cut) {
      var i :| 0 <= i < |cancelled| && cancelled[i] == x.cancelled;
      assert Cancels(cancelled, reader)[i] == x;
    }
  }
}
