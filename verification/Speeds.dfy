/** A resource bar's speeds and the ones still secret. What a player may see of them must not depend on
    the order a map is walked in. */
module Speeds {
  import opened Prelude

  // ---------------------------------------------------------------- the view, with no order in it

  /** speeds less one occurrence of each value in hidden, taken from the end. */
  function Visible(speeds: seq<int>, hidden: multiset<int>): seq<int> {
    if speeds == [] then []
    else
      var last := speeds[|speeds| - 1];
      if last in hidden then Visible(speeds[..|speeds| - 1], hidden - multiset{last})
      else Visible(speeds[..|speeds| - 1], hidden) + [last]
  }

  /** The values of the keys in ids. */
  ghost function Values(secret: map<Id, int>, ids: set<Id>): multiset<int>
    requires ids <= secret.Keys
  {
    if ids == {} then multiset{}
    else
      MaxExists(ids);
      var m :| IsMax(ids, m);
      Values(secret, ids - {m}) + multiset{secret[m]}
  }

  ghost function Hidden(secret: map<Id, int>): multiset<int> { Values(secret, secret.Keys) }

  function WithoutLast(s: seq<int>, v: int): seq<int> {
    if s == [] then []
    else if s[|s| - 1] == v then s[..|s| - 1]
    else WithoutLast(s[..|s| - 1], v) + [s[|s| - 1]]
  }

  // ---------------------------------------------------------------- facts about the view

  /** Hiding one more value is removing its last visible occurrence, whatever was hidden before. */
  lemma {:induction false} HideOneMore(speeds: seq<int>, hidden: multiset<int>, v: int)
    ensures WithoutLast(Visible(speeds, hidden), v) == Visible(speeds, hidden + multiset{v})
  {
    if speeds != [] {
      var n := |speeds| - 1;
      var last := speeds[n];
      if last in hidden {
        HideOneMore(speeds[..n], hidden - multiset{last}, v);
        assert hidden - multiset{last} + multiset{v} == hidden + multiset{v} - multiset{last};
      } else if last == v {
        assert hidden + multiset{v} - multiset{last} == hidden;
      } else {
        HideOneMore(speeds[..n], hidden, v);
      }
    }
  }

  lemma ValuesMax(secret: map<Id, int>, ids: set<Id>) returns (m: Id)
    requires ids <= secret.Keys && ids != {}
    ensures m in ids && Values(secret, ids) == Values(secret, ids - {m}) + multiset{secret[m]}
  {
    MaxExists(ids);
    m :| IsMax(ids, m) && Values(secret, ids) == Values(secret, ids - {m}) + multiset{secret[m]};
  }

  lemma Swapped(bag: multiset<int>, a: int, b: int)
    ensures bag + multiset{a} + multiset{b} == bag + multiset{b} + multiset{a}
  {
  }

  /** The sum of the parts, whichever key is taken out first: walking order does not matter. */
  lemma {:induction false} ValuesSplit(secret: map<Id, int>, ids: set<Id>, k: Id)
    requires ids <= secret.Keys && k in ids
    ensures Values(secret, ids) == Values(secret, ids - {k}) + multiset{secret[k]}
    decreases ids
  {
    var m := ValuesMax(secret, ids);
    if k != m {
      ValuesSplit(secret, ids - {m}, k);
      ValuesSplit(secret, ids - {k}, m);
      assert ids - {m} - {k} == ids - {k} - {m};
      Swapped(Values(secret, ids - {m} - {k}), secret[k], secret[m]);
    }
  }

  lemma {:induction false} ValuesAgree(a: map<Id, int>, b: map<Id, int>, ids: set<Id>)
    requires ids <= a.Keys && ids <= b.Keys && forall k :: k in ids ==> a[k] == b[k]
    ensures Values(a, ids) == Values(b, ids)
  {
    if k :| k in ids {
      ValuesSplit(a, ids, k);
      ValuesSplit(b, ids, k);
      ValuesAgree(a, b, ids - {k});
    }
  }

  lemma {:induction false} ValuesSize(secret: map<Id, int>, ids: set<Id>)
    requires ids <= secret.Keys
    ensures |Values(secret, ids)| == |ids|
  {
    if k :| k in ids {
      ValuesSplit(secret, ids, k);
      ValuesSize(secret, ids - {k});
    }
  }

  /** As multisets: what is seen is what was rolled less what is hidden. */
  lemma {:induction false} VisibleBag(speeds: seq<int>, hidden: multiset<int>)
    ensures multiset(Visible(speeds, hidden)) == multiset(speeds) - hidden
  {
    if speeds != [] {
      var n := |speeds| - 1;
      var last := speeds[n];
      assert speeds == speeds[..n] + [last];
      if last in hidden {
        VisibleBag(speeds[..n], hidden - multiset{last});
      } else {
        VisibleBag(speeds[..n], hidden);
      }
    }
  }

  /** The elements of s at the positions before i that outlast the hidden values: those with at least as
      many later occurrences of themselves as are hidden. */
  function Outlasting(s: seq<int>, hidden: multiset<int>, i: nat): seq<int>
    requires i <= |s|
  {
    if i == 0 then []
    else
      var rest := Outlasting(s, hidden, i - 1);
      if hidden[s[i - 1]] <= multiset(s[i..])[s[i - 1]] then rest + [s[i - 1]] else rest
  }

  lemma {:induction false} VisiblePrefix(s: seq<int>, hidden: multiset<int>, i: nat)
    requires i <= |s|
    ensures Visible(s[..i], hidden - multiset(s[i..])) == Outlasting(s, hidden, i)
  {
    if i > 0 {
      var x := s[i - 1];
      assert s[..i][..i - 1] == s[..i - 1];
      assert s[i - 1..] == [x] + s[i..];
      assert hidden - multiset(s[i - 1..]) == hidden - multiset(s[i..]) - multiset{x};
      VisiblePrefix(s, hidden, i - 1);
      if x !in hidden - multiset(s[i..]) {
        assert hidden - multiset(s[i..]) - multiset{x} == hidden - multiset(s[i..]);
      }
    }
  }

  /** Which positions a player sees, exactly: a subsequence of the speeds, in their order, that hides the
      last occurrences of each hidden value. */
  lemma VisiblePositions(speeds: seq<int>, hidden: multiset<int>)
    ensures Visible(speeds, hidden) == Outlasting(speeds, hidden, |speeds|)
  {
    VisiblePrefix(speeds, hidden, |speeds|);
    assert speeds[..|speeds|] == speeds;
    assert hidden - multiset(speeds[|speeds|..]) == hidden;
  }

  lemma {:induction false} NothingHidden(s: seq<int>)
    ensures Visible(s, multiset{}) == s
  {
    if s != [] {
      NothingHidden(s[..|s| - 1]);
      assert s == s[..|s| - 1] + [s[|s| - 1]];
    }
  }

  /** Charging a secret changes nothing a player sees; revealing it gives back exactly its value. */
  lemma ChargedUnseen(speeds: seq<int>, hidden: multiset<int>, v: int)
    ensures Visible(speeds + [v], hidden + multiset{v}) == Visible(speeds, hidden)
  {
    assert (speeds + [v])[..|speeds|] == speeds;
    assert hidden + multiset{v} - multiset{v} == hidden;
  }

  lemma RevealedBag(speeds: seq<int>, hidden: multiset<int>, v: int)
    requires hidden + multiset{v} <= multiset(speeds)
    ensures multiset(Visible(speeds, hidden)) == multiset(Visible(speeds, hidden + multiset{v})) + multiset{v}
  {
    VisibleBag(speeds, hidden);
    VisibleBag(speeds, hidden + multiset{v});
  }

  lemma ChargedHidden(secret: map<Id, int>, id: Id, speed: int)
    ensures Hidden(secret[id := speed]) == Values(secret, secret.Keys - {id}) + multiset{speed}
    ensures Hidden(secret) == Values(secret, secret.Keys - {id}) + if id in secret then multiset{secret[id]}
      else multiset{}
  {
    var now := secret[id := speed];
    ValuesSplit(now, now.Keys, id);
    assert now.Keys - {id} == secret.Keys - {id};
    ValuesAgree(secret, now, secret.Keys - {id});
    if id in secret { ValuesSplit(secret, secret.Keys, id); } else { assert secret.Keys - {id} == secret.Keys; }
  }

  lemma SecretCharged(speeds: seq<int>, secret: map<Id, int>, id: Id, speed: int)
    requires Hidden(secret) <= multiset(speeds)
    ensures Hidden(secret[id := speed]) <= multiset(speeds + [speed])
    ensures id !in secret ==> Visible(speeds + [speed], Hidden(secret[id := speed])) == Visible(speeds, Hidden(secret))
  {
    var rest := Values(secret, secret.Keys - {id});
    ChargedHidden(secret, id, speed);
    assert rest <= Hidden(secret);
    if id !in secret { assert Hidden(secret) == rest; }
    assert multiset(speeds + [speed]) == multiset(speeds) + multiset{speed};
    ChargedUnseen(speeds, rest, speed);
  }

  // ---------------------------------------------------------------- the bar

  class ResourceBar {
    var balance: real
    var speeds: seq<int>
    var secret: map<Id, int>

    constructor ()
      ensures Valid() && speeds == [] && secret == map[] && balance == 0.0
    {
      balance, speeds, secret := 0.0, [], map[];
    }

    /** Each secret speed is one of the speeds, with multiplicity: hiding them removes exactly one element
        each. */
    ghost predicate Valid()
      reads this
    {
      Hidden(secret) <= multiset(speeds)
    }

    /** What PublicSpeeds returns. */
    ghost function Public(): seq<int>
      reads this
    {
      Visible(speeds, Hidden(secret))
    }

    method RecordSpeed(speed: int)
      requires Valid()
      modifies this`speeds
      ensures Valid() && speeds == old(speeds) + [speed]
    {
      speeds := speeds + [speed];
    }

    /** Recording under an id that is already secret lets go of that id's earlier speed. */
    method RecordSecretSpeed(id: Id, speed: int)
      requires Valid()
      modifies this`speeds, this`secret
      ensures Valid() && speeds == old(speeds) + [speed] && secret == old(secret)[id := speed]
      ensures id !in old(secret) ==> Public() == old(Public())
    {
      SecretCharged(speeds, secret, id, speed);
      speeds := speeds + [speed];
      secret := secret[id := speed];
    }

    method Reveal(id: Id)
      requires Valid()
      modifies this`secret
      ensures Valid() && secret == old(secret) - {id}
      ensures multiset(Public()) ==
        if id in old(secret) then multiset(old(Public())) + multiset{old(secret)[id]} else multiset(old(Public()))
    {
      ghost var was := secret;
      secret := secret - {id};
      if id in was {
        ValuesSplit(was, was.Keys, id);
        assert secret.Keys == was.Keys - {id};
        ValuesAgree(was, secret, secret.Keys);
        RevealedBag(speeds, Hidden(secret), was[id]);
      } else {
        assert secret == was;
      }
    }

    method RevealAll()
      requires Valid()
      modifies this`secret
      ensures Valid() && secret == map[] && Public() == speeds
    {
      secret := map[];
      NothingHidden(speeds);
    }

    /** The secrets are walked in an order nobody chooses; the result is one sequence all the same. */
    method PublicSpeeds() returns (out: seq<int>)
      ensures out == Public()
    {
      out := speeds;
      NothingHidden(speeds);
      var todo := secret.Keys;
      while todo != {}
        invariant todo <= secret.Keys
        invariant out == Visible(speeds, Values(secret, secret.Keys - todo))
        decreases |todo|
      {
        var id :| id in todo;
        ghost var done := secret.Keys - todo;
        assert secret.Keys - (todo - {id}) == done + {id} && done + {id} - {id} == done;
        ValuesSplit(secret, done + {id}, id);
        HideOneMore(speeds, Values(secret, done), secret[id]);
        out := RemoveLast(out, secret[id]);
        todo := todo - {id};
      }
      assert secret.Keys - todo == secret.Keys;
    }

    method RemoveLast(s: seq<int>, speed: int) returns (out: seq<int>)
      ensures out == WithoutLast(s, speed)
    {
      out := s;
      var i := |s|;
      assert s[..i] == s;
      while i > 0
        invariant 0 <= i <= |s|
        invariant WithoutLast(s, speed) == WithoutLast(s[..i], speed) + s[i..]
      {
        i := i - 1;
        assert s[..i + 1][..i] == s[..i] && s[i..] == [s[i]] + s[i + 1..];
        if s[i] == speed {
          return s[..i] + s[i + 1..];
        }
      }
    }

    method ResetRound()
      modifies this`speeds, this`secret
      ensures Valid() && speeds == [] && secret == map[]
    {
      speeds, secret := [], map[];
    }
  }

  /** How many a player sees: every secret hides exactly one. */
  lemma PublicLength(speeds: seq<int>, secret: map<Id, int>)
    requires Hidden(secret) <= multiset(speeds)
    ensures |Visible(speeds, Hidden(secret))| == |speeds| - |secret|
    ensures multiset(Visible(speeds, Hidden(secret))) + Hidden(secret) == multiset(speeds)
  {
    VisibleBag(speeds, Hidden(secret));
    ValuesSize(secret, secret.Keys);
    assert |multiset(Visible(speeds, Hidden(secret)))| == |Visible(speeds, Hidden(secret))|;
    assert |multiset(speeds)| == |speeds|;
  }

  // ---------------------------------------------------------------- the bar under the session

  /** One speed on the bar: whose reaction it is while that reaction has not been opened, nobody's after. */
  datatype Charge = Charge(speed: int, secretOf: Option<Id>)

  /** One character's bar in the session. log is what an observer of the table notes: every speed in the
      order it was charged, and which of them is still secret. reacted says whether the character has sent
      a reaction to the open turn. */
  datatype Play = Play(speeds: seq<int>, secret: map<Id, int>, open: bool, reacted: bool, log: seq<Charge>)

  /** What the session does that can reach the bar. charged is None where the speed is not charged to it:
      another character's action, another bar, a free reaction, or a round that is not a race. */
  datatype Event =
    | TurnOpens(charged: Option<int>)
    /** open_next_action or pull_action closed the open turn and opened nothing. */
    | OpensNothing
    | TurnCloses
    | Reacts(id: Id, charged: Option<int>)
    | ReactionOpens(id: Id)
    /** priced says whether the bar had a price to settle. */
    | RoundCloses(priced: bool)

  function Opened(log: seq<Charge>, id: Id): seq<Charge> {
    seq(|log|, i requires 0 <= i < |log| => if log[i].secretOf == Some(id) then log[i].(secretOf := None) else log[i])
  }

  function AllOpened(log: seq<Charge>): seq<Charge> {
    seq(|log|, i requires 0 <= i < |log| => log[i].(secretOf := None))
  }

  /** closeOpenTurn: only an open turn's reactions can be secret, and its close makes them public. */
  function TurnClosed(p: Play): Play {
    if p.open then p.(secret := map[], open := false, log := AllOpened(p.log)) else p
  }

  function Recorded(p: Play, charged: Option<int>): Play {
    if charged.None? then p
    else p.(speeds := p.speeds + [charged.value], log := p.log + [Charge(charged.value, None)])
  }

  /** A reaction with no turn open, or a second one to the same turn, is refused before it is charged. */
  function After(p: Play, e: Event): Play {
    match e
    case TurnOpens(charged) => Recorded(TurnClosed(p), charged).(open := true, reacted := false)
    case OpensNothing => TurnClosed(p)
    case TurnCloses => TurnClosed(p)
    case Reacts(id, charged) =>
      if !p.open || p.reacted then p
      else if charged.None? then p.(reacted := true)
      else p.(reacted := true, speeds := p.speeds + [charged.value], secret := p.secret[id := charged.value],
              log := p.log + [Charge(charged.value, Some(id))])
    case ReactionOpens(id) => if p.open then p.(secret := p.secret - {id}, log := Opened(p.log, id)) else p
    case RoundCloses(priced) => if !p.open && priced then p.(speeds := [], secret := map[], log := []) else p
  }

  function Played(events: seq<Event>): Play {
    if events == [] then Play([], map[], false, false, [])
    else After(Played(events[..|events| - 1]), events[|events| - 1])
  }

  /** The speeds of the log that are public, in the order they were charged. */
  function PublicOf(log: seq<Charge>): seq<int> {
    if log == [] then []
    else
      var rest := PublicOf(log[..|log| - 1]);
      if log[|log| - 1].secretOf.None? then rest + [log[|log| - 1].speed] else rest
  }

  function SpeedsOf(log: seq<Charge>): seq<int> { seq(|log|, i requires 0 <= i < |log| => log[i].speed) }

  ghost predicate NoneSecret(log: seq<Charge>) { forall i :: 0 <= i < |log| ==> log[i].secretOf.None? }

  /** Either nothing is secret, or exactly the last speed is, charged by the open turn's reaction. */
  ghost predicate LastAlone(p: Play) {
    && p.speeds == SpeedsOf(p.log)
    && ((p.secret == map[] && NoneSecret(p.log))
        || (p.open && p.reacted && p.log != [] && NoneSecret(p.log[..|p.log| - 1])
            && var last := p.log[|p.log| - 1];
               last.secretOf.Some? && p.secret == map[last.secretOf.value := last.speed]))
  }

  lemma {:induction false} AllPublic(log: seq<Charge>)
    requires NoneSecret(log)
    ensures PublicOf(log) == SpeedsOf(log)
  {
    if log != [] {
      AllPublic(log[..|log| - 1]);
      assert SpeedsOf(log) == SpeedsOf(log[..|log| - 1]) + [log[|log| - 1].speed];
    }
  }

  lemma AfterKeeps(p: Play, e: Event)
    requires LastAlone(p)
    ensures LastAlone(After(p, e))
  {
    var q := After(p, e);
    match e {
      case TurnOpens(charged) =>
        assert NoneSecret(TurnClosed(p).log) && TurnClosed(p).secret == map[];
        assert TurnClosed(p).speeds == SpeedsOf(TurnClosed(p).log);
      case OpensNothing =>
      case TurnCloses =>
      case Reacts(id, charged) => if p.open && !p.reacted && charged.Some? { assert q.log[..|p.log|] == p.log; }
      case ReactionOpens(id) => if p.open { ReactionOpensKeeps(p, id); }
      case RoundCloses(priced) =>
    }
  }

  lemma ReactionOpensKeeps(p: Play, id: Id)
    requires LastAlone(p) && p.open
    ensures LastAlone(After(p, ReactionOpens(id)))
  {
    var q := After(p, ReactionOpens(id));
    if p.log != [] && p.log[|p.log| - 1].secretOf.Some? {
      var last := p.log[|p.log| - 1];
      assert forall i :: 0 <= i < |p.log| - 1 ==> p.log[i] == p.log[..|p.log| - 1][i];
      if last.secretOf == Some(id) {
        assert q.secret == map[];
      } else {
        assert q.log == p.log && q.secret == p.secret;
      }
    } else {
      assert q.secret == p.secret;
      assert NoneSecret(p.log);
      assert q.log == p.log;
    }
  }

  lemma {:induction false} PlayedKeeps(events: seq<Event>)
    ensures LastAlone(Played(events))
  {
    if events != [] {
      PlayedKeeps(events[..|events| - 1]);
      AfterKeeps(Played(events[..|events| - 1]), events[|events| - 1]);
    }
  }

  lemma OneHidden(id: Id, v: int)
    ensures Hidden(map[id := v]) == multiset{v} && Hidden(map[]) == multiset{}
  {
    var one := map[id := v];
    ValuesSplit(one, one.Keys, id);
    assert one.Keys - {id} == {};
  }

  lemma NoneHiddenShows(log: seq<Charge>)
    requires NoneSecret(log)
    ensures Visible(SpeedsOf(log), Hidden(map[])) == PublicOf(log)
  {
    OneHidden(0, 0);
    NothingHidden(SpeedsOf(log));
    AllPublic(log);
  }

  lemma LastHiddenShows(init: seq<Charge>, id: Id, v: int)
    requires NoneSecret(init)
    ensures var log := init + [Charge(v, Some(id))];
      Visible(SpeedsOf(log), Hidden(map[id := v])) == PublicOf(log)
  {
    var log := init + [Charge(v, Some(id))];
    OneHidden(id, v);
    NoneHiddenShows(init);
    ChargedUnseen(SpeedsOf(init), multiset{}, v);
    assert SpeedsOf(log) == SpeedsOf(init) + [v];
    assert multiset{} + multiset{v} == multiset{v};
    assert log[..|log| - 1] == init;
  }

  // ---------------------------------------------------------------- the same, read off the events

  /** Each of these closes the turn that is open, if one is. */
  predicate EndsTurn(e: Event) { e.TurnOpens? || e.OpensNothing? || e.TurnCloses? }

  /** The last such event opened a turn. */
  ghost predicate IsOpen(events: seq<Event>) { exists i :: OpenSince(events, i) }

  ghost predicate OpenSince(events: seq<Event>, i: nat) {
    i < |events| && events[i].TurnOpens? && forall j :: i < j < |events| ==> !EndsTurn(events[j])
  }

  /** The character has sent a reaction to the turn that is open. */
  ghost predicate HasReacted(events: seq<Event>) { exists i, k :: ReactedAt(events, i, k) }

  ghost predicate ReactedAt(events: seq<Event>, i: nat, k: nat) {
    OpenSince(events, i) && i < k < |events| && events[k].Reacts?
  }

  /** What event i charges to the bar: the action of a turn that opens, or the first reaction to an open one. */
  ghost function ChargedAt(events: seq<Event>, i: nat): Option<int>
    requires i < |events|
  {
    match events[i]
    case TurnOpens(charged) => charged
    case Reacts(_, charged) => if IsOpen(events[..i]) && !HasReacted(events[..i]) then charged else None
    case OpensNothing => None
    case TurnCloses => None
    case ReactionOpens(_) => None
    case RoundCloses(_) => None
  }

  /** No round of prices has closed since. One cannot while a turn is open. */
  ghost predicate Stands(events: seq<Event>, i: nat) {
    forall j :: i < j < |events| && events[j] == RoundCloses(true) ==> IsOpen(events[..j])
  }

  /** Everyone knows: an action's speed at once; a reaction's when it is opened or its turn ends. */
  ghost predicate Heard(events: seq<Event>, i: nat)
    requires i < |events|
  {
    events[i].Reacts? ==>
      exists j :: i < j < |events| && (EndsTurn(events[j]) || events[j] == ReactionOpens(events[i].id))
  }

  ghost function EntryAt(events: seq<Event>, i: nat): seq<Charge>
    requires i < |events|
  {
    if ChargedAt(events, i).None? || !Stands(events, i) then []
    else [Charge(ChargedAt(events, i).value,
                 if events[i].Reacts? && !Heard(events, i) then Some(events[i].id) else None)]
  }

  ghost function LogOf(events: seq<Event>, n: nat): seq<Charge>
    requires n <= |events|
  {
    if n == 0 then [] else LogOf(events, n - 1) + EntryAt(events, n - 1)
  }

  /** The speeds charged by the first n events that stand at the end; and those of them everyone knows. */
  ghost function Rolled(events: seq<Event>, n: nat): seq<int>
    requires n <= |events|
  {
    if n == 0 then []
    else if ChargedAt(events, n - 1).None? || !Stands(events, n - 1) then Rolled(events, n - 1)
    else Rolled(events, n - 1) + [ChargedAt(events, n - 1).value]
  }

  ghost function Known(events: seq<Event>, n: nat): seq<int>
    requires n <= |events|
  {
    if n == 0 then []
    else if ChargedAt(events, n - 1).None? || !Stands(events, n - 1) || !Heard(events, n - 1) then Known(events, n - 1)
    else Known(events, n - 1) + [ChargedAt(events, n - 1).value]
  }

  lemma {:induction false} LogTells(events: seq<Event>, n: nat)
    requires n <= |events|
    ensures SpeedsOf(LogOf(events, n)) == Rolled(events, n) && PublicOf(LogOf(events, n)) == Known(events, n)
  {
    if n > 0 {
      LogTells(events, n - 1);
      var before := LogOf(events, n - 1);
      if ChargedAt(events, n - 1).None? || !Stands(events, n - 1) {
        assert LogOf(events, n) == before + [] == before;
      } else {
        HeardEntry(events, n - 1);
        OneMore(before, EntryAt(events, n - 1)[0]);
      }
    }
  }

  lemma HeardEntry(events: seq<Event>, i: nat)
    requires i < |events| && ChargedAt(events, i).Some? && Stands(events, i)
    ensures var e := EntryAt(events, i);
      |e| == 1 && e[0].speed == ChargedAt(events, i).value && (e[0].secretOf.None? <==> Heard(events, i))
  {
  }

  lemma OneMore(log: seq<Charge>, c: Charge)
    ensures SpeedsOf(log + [c]) == SpeedsOf(log) + [c.speed]
    ensures PublicOf(log + [c]) == if c.secretOf.None? then PublicOf(log) + [c.speed] else PublicOf(log)
  {
    assert (log + [c])[..|log|] == log;
  }

  /** One event more, for the turn opened at i. */
  lemma SinceThen(events: seq<Event>, e: Event, i: nat)
    ensures OpenSince(events + [e], i) <==>
      (i < |events| && OpenSince(events, i) && !EndsTurn(e)) || (i == |events| && e.TurnOpens?)
  {
    var all := events + [e];
    assert forall j :: 0 <= j < |events| ==> all[j] == events[j];
    assert all[|events|] == e;
    if OpenSince(all, i) && i < |events| { assert !EndsTurn(all[|events|]); }
  }

  lemma OpenThen(events: seq<Event>, e: Event)
    ensures IsOpen(events + [e]) <==> e.TurnOpens? || (IsOpen(events) && !EndsTurn(e))
  {
    var all := events + [e];
    SinceThen(events, e, |events|);
    if IsOpen(events) && !EndsTurn(e) {
      var i: nat :| OpenSince(events, i);
      SinceThen(events, e, i);
    }
    if IsOpen(all) {
      var i: nat :| OpenSince(all, i);
      SinceThen(events, e, i);
    }
  }

  lemma ReactedThen(events: seq<Event>, e: Event)
    ensures HasReacted(events + [e]) <==> !EndsTurn(e) && (HasReacted(events) || (IsOpen(events) && e.Reacts?))
  {
    var all := events + [e];
    if HasReacted(events) && !EndsTurn(e) {
      var i: nat, k: nat :| ReactedAt(events, i, k);
      SinceThen(events, e, i);
      assert ReactedAt(all, i, k);
    }
    if IsOpen(events) && e.Reacts? {
      var i: nat :| OpenSince(events, i);
      SinceThen(events, e, i);
      assert ReactedAt(all, i, |events|);
    }
    if HasReacted(all) {
      var i: nat, k: nat :| ReactedAt(all, i, k);
      SinceThen(events, e, i);
      if k < |events| { assert ReactedAt(events, i, k); }
    }
  }

  /** What one more event does to the entry of an earlier one. */
  function Retold(entry: seq<Charge>, e: Event, open: bool): seq<Charge> {
    if e == RoundCloses(true) && !open then []
    else if EndsTurn(e) then AllOpened(entry)
    else if e.ReactionOpens? then Opened(entry, e.id)
    else entry
  }

  lemma EntryThen(events: seq<Event>, e: Event, i: nat)
    requires i < |events|
    ensures EntryAt(events + [e], i) == Retold(EntryAt(events, i), e, IsOpen(events))
  {
    var all := events + [e];
    assert forall j :: 0 <= j < |events| ==> all[j] == events[j] && all[..j] == events[..j];
    assert all[..|events|] == events;
    assert Stands(all, i) <==> Stands(events, i) && (e == RoundCloses(true) ==> IsOpen(events)) by {
      if Stands(all, i) {
        assert all[|events|] == e;
        forall j | i < j < |events| && events[j] == RoundCloses(true) ensures IsOpen(events[..j]) {
          assert all[j] == events[j];
        }
      }
    }
    HeardThen(events, e, i);
  }

  lemma HeardThen(events: seq<Event>, e: Event, i: nat)
    requires i < |events|
    ensures Heard(events + [e], i) <==>
      Heard(events, i) || EndsTurn(e) || (events[i].Reacts? && e == ReactionOpens(events[i].id))
  {
    var all := events + [e];
    assert forall j :: 0 <= j < |events| ==> all[j] == events[j];
    assert all[|events|] == e;
    if Heard(events, i) && events[i].Reacts? {
      var j :| i < j < |events| && (EndsTurn(events[j]) || events[j] == ReactionOpens(events[i].id));
      assert EndsTurn(all[j]) || all[j] == ReactionOpens(all[i].id);
    }
  }

  lemma {:induction false} LogThen(events: seq<Event>, e: Event, n: nat)
    requires n <= |events|
    ensures LogOf(events + [e], n) == Retold(LogOf(events, n), e, IsOpen(events))
  {
    if n > 0 {
      LogThen(events, e, n - 1);
      EntryThen(events, e, n - 1);
      RetoldSplits(LogOf(events, n - 1), EntryAt(events, n - 1), LogOf(events + [e], n - 1),
        EntryAt(events + [e], n - 1), e, IsOpen(events));
    }
  }

  lemma RetoldSplits(a: seq<Charge>, b: seq<Charge>, a': seq<Charge>, b': seq<Charge>, e: Event, open: bool)
    requires a' == Retold(a, e, open) && b' == Retold(b, e, open)
    ensures a' + b' == Retold(a + b, e, open)
  {
  }

  lemma Untold(log: seq<Charge>, e: Event)
    requires NoneSecret(log)
    ensures AllOpened(log) == log && (e.ReactionOpens? ==> Opened(log, e.id) == log)
  {
  }

  /** What one event does to the log the session keeps. */
  lemma KeptLog(p: Play, e: Event)
    requires p.open || NoneSecret(p.log)
    ensures After(p, e).log == Retold(p.log, e, p.open) + NewEntry(e, p.open, p.reacted)
  {
    if !p.open { Untold(p.log, e); }
  }

  function NewEntry(e: Event, open: bool, reacted: bool): seq<Charge> {
    match e
    case TurnOpens(charged) => if charged.Some? then [Charge(charged.value, None)] else []
    case Reacts(id, charged) => if open && !reacted && charged.Some? then [Charge(charged.value, Some(id))] else []
    case OpensNothing => []
    case TurnCloses => []
    case ReactionOpens(_) => []
    case RoundCloses(_) => []
  }

  /** The bar in the session is what the events made of it. */
  lemma {:induction false} LogIs(events: seq<Event>)
    ensures var p := Played(events);
      && p.open == IsOpen(events) && (p.open ==> p.reacted == HasReacted(events))
      && p.log == LogOf(events, |events|)
  {
    if events != [] {
      var n := |events| - 1;
      var init, e, before := events[..n], events[n], Played(events[..n]);
      LogIs(init);
      PlayedKeeps(init);
      OpenThen(init, e);
      ReactedThen(init, e);
      LogThen(init, e, n);
      assert init + [e] == events && events[..n] == init;
      KeptLog(before, e);
      LastEntry(init, e);
    }
  }

  lemma LastEntry(init: seq<Event>, e: Event)
    ensures EntryAt(init + [e], |init|) == NewEntry(e, IsOpen(init), HasReacted(init))
  {
    assert (init + [e])[..|init|] == init && (init + [e])[|init|] == e;
  }

  /** Over every run of the session, what PublicSpeeds shows is exactly the speeds everyone knows of — of
      the actions opened since the last round of prices closed, and of the reactions to their turns that were
      opened themselves or whose turn ended — each in its own place; and all of them are on the bar. */
  lemma PublicIsTheTable(events: seq<Event>)
    ensures var p := Played(events);
      && Visible(p.speeds, Hidden(p.secret)) == Known(events, |events|)
      && p.speeds == Rolled(events, |events|)
  {
    LogIs(events);
    LogTells(events, |events|);
    PublicIsTheLog(events);
  }

  lemma PublicIsTheLog(events: seq<Event>)
    ensures var p := Played(events);
      Visible(p.speeds, Hidden(p.secret)) == PublicOf(p.log) && p.speeds == SpeedsOf(p.log)
  {
    var p := Played(events);
    PlayedKeeps(events);
    if p.secret == map[] && NoneSecret(p.log) {
      NoneHiddenShows(p.log);
    } else {
      var init, last := p.log[..|p.log| - 1], p.log[|p.log| - 1];
      LastHiddenShows(init, last.secretOf.value, last.speed);
      assert p.log == init + [Charge(last.speed, last.secretOf)];
    }
  }
}
