/** The accumulated bonuses and penalties a character carries: an in-place compacted slice that behaves as
    an append-only log filtered by lifetime. */
module Ledger {
  import opened Prelude

  datatype Dimension = ActionSpeed | Dodge
  datatype Lifetime = EndOfTurn | NextTurn | EndOfRound
  datatype Source = System | Master

  datatype Scope = Anyone | Only(id: Id) | AllBut(id: Id) {
    predicate AppliesTo(target: Option<Id>) {
      match this
      case Only(id) => target == Some(id)
      case AllBut(id) => target != Some(id)
      case Anyone => true
    }
  }

  datatype Modifier = Modifier(amount: int, bias: int, applies: Dimension, source: Source, against: Scope,
    expires: Lifetime)

  // ---------------------------------------------------------------- one pass over the slice

  function Demoted(m: Modifier): Modifier { if m.expires.NextTurn? then m.(expires := EndOfTurn) else m }

  function Advanced(s: seq<Modifier>): seq<Modifier> {
    if s == [] then []
    else
      var rest := Advanced(s[..|s| - 1]);
      if s[|s| - 1].expires.EndOfTurn? then rest else rest + [Demoted(s[|s| - 1])]
  }

  function Expired(s: seq<Modifier>, lifetime: Lifetime): seq<Modifier> {
    if s == [] then []
    else
      var rest := Expired(s[..|s| - 1], lifetime);
      if s[|s| - 1].expires == lifetime then rest else rest + [s[|s| - 1]]
  }

  function Amounts(s: seq<Modifier>, dim: Dimension, target: Option<Id>): int {
    if s == [] then 0
    else
      var last := s[|s| - 1];
      Amounts(s[..|s| - 1], dim, target) +
      if last.applies == dim && last.against.AppliesTo(target) then last.amount else 0
  }

  function Biases(s: seq<Modifier>, dim: Dimension, target: Option<Id>): int {
    if s == [] then 0
    else
      var last := s[|s| - 1];
      Biases(s[..|s| - 1], dim, target) +
      if last.applies == dim && last.against.AppliesTo(target) then last.bias else 0
  }

  // ---------------------------------------------------------------- the log

  datatype Entry = Adds(m: Modifier) | TurnCloses | Expires(lifetime: Lifetime)

  function After(log: seq<Entry>): seq<Modifier> {
    if log == [] then []
    else
      var before := After(log[..|log| - 1]);
      match log[|log| - 1]
      case Adds(m) => before + [m]
      case TurnCloses => Advanced(before)
      case Expires(lifetime) => Expired(before, lifetime)
  }

  /** The log itself, nothing compacted: every modifier ever added with what is left of it after all that
      followed, if anything is. */
  function Kept(m: Option<Modifier>, e: Entry): Option<Modifier> {
    if m.None? then None
    else match e
      case Adds(_) => m
      case TurnCloses => if m.value.expires.EndOfTurn? then None else Some(Demoted(m.value))
      case Expires(lifetime) => if m.value.expires == lifetime then None else m
  }

  function Fate(m: Modifier, later: seq<Entry>): Option<Modifier> {
    if later == [] then Some(m) else Kept(Fate(m, later[..|later| - 1]), later[|later| - 1])
  }

  function Singleton(m: Option<Modifier>): seq<Modifier> { if m.Some? then [m.value] else [] }

  /** The modifiers added by the first n entries that are still alive at the end of the log, in insertion
      order. */
  function Survivors(log: seq<Entry>, n: nat): seq<Modifier>
    requires n <= |log|
  {
    if n == 0 then []
    else
      var rest := Survivors(log, n - 1);
      if log[n - 1].Adds? then rest + Singleton(Fate(log[n - 1].m, log[n..])) else rest
  }

  // ---------------------------------------------------------------- refinement

  lemma {:induction false} AdvancedSplits(a: seq<Modifier>, b: seq<Modifier>)
    ensures Advanced(a + b) == Advanced(a) + Advanced(b)
  {
    if b == [] {
      assert a + b == a;
    } else {
      AdvancedSplits(a, b[..|b| - 1]);
      assert (a + b)[..|a + b| - 1] == a + b[..|b| - 1];
    }
  }

  lemma {:induction false} ExpiredSplits(a: seq<Modifier>, b: seq<Modifier>, lifetime: Lifetime)
    ensures Expired(a + b, lifetime) == Expired(a, lifetime) + Expired(b, lifetime)
  {
    if b == [] {
      assert a + b == a;
    } else {
      ExpiredSplits(a, b[..|b| - 1], lifetime);
      assert (a + b)[..|a + b| - 1] == a + b[..|b| - 1];
    }
  }

  function Applied(s: seq<Modifier>, e: Entry): seq<Modifier> {
    match e
    case Adds(_) => s
    case TurnCloses => Advanced(s)
    case Expires(lifetime) => Expired(s, lifetime)
  }

  /** One more entry does to the survivors, one by one, what a compaction does to the slice. */
  lemma {:induction false} SurvivorsStep(log: seq<Entry>, e: Entry, n: nat)
    requires n <= |log|
    ensures Survivors(log + [e], n) == Applied(Survivors(log, n), e)
  {
    if n > 0 {
      SurvivorsStep(log, e, n - 1);
      assert (log + [e])[n..] == log[n..] + [e];
      if log[n - 1].Adds? {
        SurvivorStep(log[n - 1].m, log[n..], e);
        AppliedSplits(Survivors(log, n - 1), Singleton(Fate(log[n - 1].m, log[n..])), e);
      }
    }
  }

  lemma AppliedSplits(a: seq<Modifier>, b: seq<Modifier>, e: Entry)
    ensures Applied(a + b, e) == Applied(a, e) + Applied(b, e)
  {
    AdvancedSplits(a, b);
    if e.Expires? { ExpiredSplits(a, b, e.lifetime); }
  }

  lemma SurvivorStep(m: Modifier, later: seq<Entry>, e: Entry)
    ensures Singleton(Fate(m, later + [e])) == Applied(Singleton(Fate(m, later)), e)
  {
    assert (later + [e])[..|later|] == later;
    var fate := Fate(m, later);
    assert Fate(m, later + [e]) == Kept(fate, e);
    if fate.Some? { AppliedToOne(fate.value, e); }
  }

  lemma AppliedToOne(m: Modifier, e: Entry)
    ensures Applied([m], e) == Singleton(Kept(Some(m), e))
  {
    var one := [m];
    assert one[..|one| - 1] == [];
    assert Advanced([]) == [] && (e.Expires? ==> Expired([], e.lifetime) == []);
  }

  /** Compacting as it goes leaves exactly the survivors of the full log, in insertion order. */
  lemma {:induction false} CompactionRefinesLog(log: seq<Entry>)
    ensures After(log) == Survivors(log, |log|)
  {
    if log != [] {
      var init, e := log[..|log| - 1], log[|log| - 1];
      CompactionRefinesLog(init);
      SurvivorsStep(init, e, |init|);
      assert init + [e] == log;
      assert log[|log|..] == [];
    }
  }

  // ---------------------------------------------------------------- lifetimes in closed form

  function Closes(later: seq<Entry>): nat {
    if later == [] then 0 else Closes(later[..|later| - 1]) + if later[|later| - 1].TurnCloses? then 1 else 0
  }

  ghost predicate NoExpire(later: seq<Entry>, lifetime: Lifetime) {
    forall i :: 0 <= i < |later| ==> later[i] != Expires(lifetime)
  }

  /** The Expire calls that reach a modifier earned for the next turn: for next_turn before the first turn
      close, for end_of_turn after it. */
  ghost predicate NextTurnSpared(later: seq<Entry>) {
    && (forall i :: 0 <= i < |later| && later[i] == Expires(NextTurn) ==> Closes(later[..i]) > 0)
    && (forall i :: 0 <= i < |later| && later[i] == Expires(EndOfTurn) ==> Closes(later[..i]) == 0)
  }

  lemma LastExpire(later: seq<Entry>, l: Lifetime)
    requires later != []
    ensures NoExpire(later, l) <==> NoExpire(later[..|later| - 1], l) && later[|later| - 1] != Expires(l)
  {
    var init := later[..|later| - 1];
    assert forall i :: 0 <= i < |init| ==> init[i] == later[i];
  }

  lemma LastSpared(later: seq<Entry>)
    requires later != []
    ensures var init := later[..|later| - 1];
      NextTurnSpared(later) <==>
        NextTurnSpared(init)
        && (later[|later| - 1] == Expires(NextTurn) ==> Closes(init) > 0)
        && (later[|later| - 1] == Expires(EndOfTurn) ==> Closes(init) == 0)
  {
    var init := later[..|later| - 1];
    assert forall i :: 0 <= i < |init| ==> init[i] == later[i] && init[..i] == later[..i];
    if NextTurnSpared(later) {
      forall i | 0 <= i < |init| && init[i] == Expires(NextTurn) ensures Closes(init[..i]) > 0 {
        assert later[i] == init[i];
      }
      forall i | 0 <= i < |init| && init[i] == Expires(EndOfTurn) ensures Closes(init[..i]) == 0 {
        assert later[i] == init[i];
      }
    }
  }

  /** end_of_turn survives no turn close, next_turn exactly one and end_of_round all of them, each until
      its own Expire. */
  lemma {:induction false} LifetimeInTurns(m: Modifier, later: seq<Entry>)
    ensures Fate(m, later) ==
      match m.expires
      case EndOfTurn => if Closes(later) == 0 && NoExpire(later, EndOfTurn) then Some(m) else None
      case NextTurn =>
        if Closes(later) <= 1 && NextTurnSpared(later)
        then Some(if Closes(later) == 0 then m else m.(expires := EndOfTurn)) else None
      case EndOfRound => if NoExpire(later, EndOfRound) then Some(m) else None
  {
    if later != [] {
      LifetimeInTurns(m, later[..|later| - 1]);
      LastExpire(later, m.expires);
      LastSpared(later);
    }
  }

  // ---------------------------------------------------------------- what a total adds up

  /** Against a target, or against nobody in particular: anyone's modifier always counts, one against x only
      when x is the target, one against all but x unless x is — a roll with no target included. */
  predicate Counts(m: Modifier, dim: Dimension, target: Option<Id>) {
    && m.applies == dim
    && (m.against == Anyone
        || (m.against.Only? && target.Some? && target.value == m.against.id)
        || (m.against.AllBut? && (target.None? || target.value != m.against.id)))
  }

  /** A total is 0 with no modifier, and each modifier of the dimension that counts against the target adds
      its amount to one and its bias to the other, whatever the rest; no other adds anything. */
  lemma TotalsAdd(s: seq<Modifier>, m: Modifier, dim: Dimension, target: Option<Id>)
    ensures Amounts([], dim, target) == 0 && Biases([], dim, target) == 0
    ensures Amounts(s + [m], dim, target) == Amounts(s, dim, target) + (if Counts(m, dim, target) then m.amount else 0)
    ensures Biases(s + [m], dim, target) == Biases(s, dim, target) + (if Counts(m, dim, target) then m.bias else 0)
  {
    assert (s + [m])[..|s|] == s;
  }

  /** And in any order: the two halves of a ledger add up to the whole. */
  lemma {:induction false} TotalsSplit(a: seq<Modifier>, b: seq<Modifier>, dim: Dimension, target: Option<Id>)
    ensures Amounts(a + b, dim, target) == Amounts(a, dim, target) + Amounts(b, dim, target)
    ensures Biases(a + b, dim, target) == Biases(a, dim, target) + Biases(b, dim, target)
  {
    if b == [] {
      assert a + b == a;
    } else {
      var n := |b| - 1;
      TotalsSplit(a, b[..n], dim, target);
      TotalsAdd(a + b[..n], b[n], dim, target);
      TotalsAdd(b[..n], b[n], dim, target);
      assert a + b == a + b[..n] + [b[n]] && b == b[..n] + [b[n]];
    }
  }

  // ---------------------------------------------------------------- the slice

  class ModifierLedger {
    var slots: array<Modifier>
    var len: nat

    ghost predicate Valid()
      reads this
    {
      len <= slots.Length
    }

    ghost function Contents(): seq<Modifier>
      reads this, slots
      requires Valid()
    {
      slots[..len]
    }

    constructor ()
      ensures Valid() && Contents() == [] && fresh(slots)
    {
      slots := new Modifier[0];
      len := 0;
    }

    method Add(m: Modifier)
      requires Valid()
      modifies this, slots
      ensures Valid() && Contents() == old(Contents()) + [m]
      ensures slots == old(slots) || fresh(slots)
    {
      if len == slots.Length {
        var old_ := slots;
        var filler := m;
        var grown := new Modifier[2 * len + 1](_ => filler);
        for i := 0 to len
          invariant grown.Length == 2 * len + 1 && fresh(grown) && grown != old_
          invariant grown[..i] == old_[..i]
          invariant slots == old_ && old_[..] == old(slots[..])
        {
          grown[i] := old_[i];
        }
        slots := grown;
      }
      slots[len] := m;
      len := len + 1;
    }

    method TotalAmount(dim: Dimension, target: Option<Id>) returns (total: int)
      requires Valid()
      ensures total == Amounts(Contents(), dim, target)
    {
      total := 0;
      for i := 0 to len
        invariant total == Amounts(slots[..i], dim, target)
      {
        assert slots[..i + 1][..i] == slots[..i];
        if slots[i].applies == dim && slots[i].against.AppliesTo(target) { total := total + slots[i].amount; }
      }
    }

    method TotalBias(dim: Dimension, target: Option<Id>) returns (total: int)
      requires Valid()
      ensures total == Biases(Contents(), dim, target)
    {
      total := 0;
      for i := 0 to len
        invariant total == Biases(slots[..i], dim, target)
      {
        assert slots[..i + 1][..i] == slots[..i];
        if slots[i].applies == dim && slots[i].against.AppliesTo(target) { total := total + slots[i].bias; }
      }
    }

    method Expire(lifetime: Lifetime)
      requires Valid()
      modifies this`len, slots
      ensures Valid() && Contents() == Expired(old(Contents()), lifetime)
    {
      ghost var was := Contents();
      var k := 0;
      for i := 0 to len
        invariant k <= i <= len == old(len) == |was|
        invariant slots[..k] == Expired(was[..i], lifetime)
        invariant forall j :: i <= j < len ==> slots[j] == was[j]
      {
        assert was[..i + 1][..i] == was[..i];
        if slots[i].expires != lifetime {
          slots[k] := slots[i];
          k := k + 1;
        }
      }
      assert was[..len] == was;
      len := k;
    }

    method AdvanceTurn()
      requires Valid()
      modifies this`len, slots
      ensures Valid() && Contents() == Advanced(old(Contents()))
    {
      ghost var was := Contents();
      var k := 0;
      for i := 0 to len
        invariant k <= i <= len == old(len) == |was|
        invariant slots[..k] == Advanced(was[..i])
        invariant forall j :: i <= j < len ==> slots[j] == was[j]
      {
        assert was[..i + 1][..i] == was[..i];
        var m := slots[i];
        if m.expires != EndOfTurn {
          slots[k] := if m.expires == NextTurn then m.(expires := EndOfTurn) else m;
          k := k + 1;
        }
      }
      assert was[..len] == was;
      len := k;
    }
  }
}
