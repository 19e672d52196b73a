/** The cache that spares the players a bars_updated with nothing new in it, and why a spared copy never
    leaves anyone outdated. The snapshot and the cache are one critical section; messages travel on their
    own, are delivered in any order, and a client drops any number lower than the highest it applied. */
module BarsCache {
  import opened Prelude

  /** The key of a player view; the view is the same for every player. */
  type View = nat

  datatype Message = Message(stamp: nat, view: View)

  /** One connected player: the last snapshot applied, and those still on the way. */
  datatype Seat = Seat(held: Option<Message>, queue: seq<Message>) {
    predicate Has(m: Message) { held == Some(m) || m in queue }

    predicate Empty() { held.None? && queue == [] }
  }

  /** view is what the session would show a player now; last and stale are lastPlayerBars and
      playerBarsStale; sent is the number under which last became what everyone is to hold. */
  datatype Table = Table(view: View, barsSeq: nat, last: Option<View>, stale: bool, live: bool, seats: map<Id, Seat>,
    sent: nat)

  // ---------------------------------------------------------------- the steps

  function Sending(t: Table): bool { t.stale || t.last != Some(t.view) }

  function Queued(s: Seat, m: Message): Seat { s.(queue := s.queue + [m]) }

  function QueuedAll(seats: map<Id, Seat>, m: Message): map<Id, Seat> { map p | p in seats :: Queued(seats[p], m) }

  function Broadcast(t: Table): Table {
    if !t.live then t
    else if Sending(t) then
      t.(barsSeq := t.barsSeq + 1, last := Some(t.view), stale := false, sent := t.barsSeq + 1,
        seats := QueuedAll(t.seats, Message(t.barsSeq + 1, t.view)))
    else t.(barsSeq := t.barsSeq + 1)
  }

  function NotedHanded(t: Table): Table {
    if t.last.None? && !t.stale then t.(last := Some(t.view), sent := t.barsSeq)
    else if t.last != Some(t.view) then t.(stale := true)
    else t
  }

  /** match_full_state carries the current number, not a new one. */
  function Handed(t: Table, p: Id): Table {
    if !t.live || p !in t.seats then t
    else NotedHanded(t).(seats := t.seats[p := Queued(t.seats[p], Message(t.barsSeq, t.view))])
  }

  function Delivered(s: Seat, i: nat): Seat
    requires i < |s.queue|
  {
    var rest := s.queue[..i] + s.queue[i + 1..];
    Seat(if s.held.Some? && s.queue[i].stamp < s.held.value.stamp then s.held else Some(s.queue[i]), rest)
  }

  datatype Event =
    | Changes(view: View)
    | Connects(p: Id)
    | Leaves(p: Id)
    | Starts
    | Rehydrates
    | Hands(p: Id)
    | Broadcasts
    | Delivers(p: Id, i: nat)

  function Next(t: Table, e: Event): Table {
    match e
    case Changes(view) => t.(view := view)
    case Connects(p) => t.(seats := t.seats[p := Seat(None, [])])
    case Leaves(p) => t.(seats := t.seats - {p})
    case Starts => t.(live := true, last := None, stale := true)
    case Rehydrates => t.(live := true)
    case Hands(p) => Handed(t, p)
    case Broadcasts => Broadcast(t)
    case Delivers(p, i) =>
      if p in t.seats && i < |t.seats[p].queue| then t.(seats := t.seats[p := Delivered(t.seats[p], i)]) else t
  }

  function After(t: Table, events: seq<Event>): Table {
    if events == [] then t else Next(After(t, events[..|events| - 1]), events[|events| - 1])
  }

  // ---------------------------------------------------------------- the room's side, as it is written

  class Bars {
    var view: View
    var barsSeq: nat
    var last: Option<View>
    var stale: bool
    var live: bool
    var seats: map<Id, Seat>
    ghost var sent: nat

    ghost function State(): Table
      reads this
    {
      Table(view, barsSeq, last, stale, live, seats, sent)
    }

    method NotePlayerBarsSent(key: View) returns (send: bool)
      modifies this`last, this`stale
      ensures send == (old(stale) || old(last) != Some(key))
      ensures last == Some(key) && !stale
    {
      if !stale && last.Some? && key == last.value { return false; }
      last, stale := Some(key), false;
      return true;
    }

    method NotePlayerBarsHanded(key: View)
      requires key == view
      modifies this`last, this`stale, this`sent
      ensures State() == NotedHanded(old(State()))
    {
      if last.None? && !stale {
        last := Some(key);
        sent := barsSeq;
      } else if last != Some(key) {
        stale := true;
      }
    }

    /** One message to every connected player, in whatever order they are walked. */
    method DispatchToPlayers(m: Message)
      modifies this`seats
      ensures seats == QueuedAll(old(seats), m)
    {
      var todo := seats.Keys;
      while todo != {}
        invariant todo <= seats.Keys == old(seats).Keys
        invariant forall p :: p in seats ==> seats[p] == if p in todo then old(seats)[p] else Queued(old(seats)[p], m)
        decreases |todo|
      {
        var p :| p in todo;
        seats := seats[p := seats[p].(queue := seats[p].queue + [m])];
        todo := todo - {p};
      }
      assert seats == QueuedAll(old(seats), m);
    }

    method BroadcastBars()
      modifies this
      ensures State() == Broadcast(old(State()))
    {
      if !live { return; }
      barsSeq := barsSeq + 1;
      var toPlayers := NotePlayerBarsSent(view);
      if !toPlayers { return; }
      sent := barsSeq;
      DispatchToPlayers(Message(barsSeq, view));
    }

    method SendMatchFullState(p: Id)
      modifies this
      ensures State() == Handed(old(State()), p)
    {
      if !live || p !in seats { return; }
      NotePlayerBarsHanded(view);
      seats := seats[p := seats[p].(queue := seats[p].queue + [Message(barsSeq, view)])];
    }
  }

  // ---------------------------------------------------------------- the invariant

  /** A seat that was sent anything was sent the last view under a number nothing older beats. */
  ghost predicate UpToDate(s: Seat, sent: nat, last: View) {
    && (forall m :: s.Has(m) && m.stamp >= sent ==> m.view == last)
    && (!s.Empty() ==> exists m :: s.Has(m) && m.stamp >= sent)
  }

  ghost predicate SeatInv(t: Table, s: Seat) {
    && (forall m :: s.Has(m) ==> m.stamp <= t.barsSeq)
    && (!t.stale && t.last.None? ==> s.Empty())
    && (!t.stale && t.last.Some? ==> UpToDate(s, t.sent, t.last.value))
  }

  ghost predicate Inv(t: Table) {
    t.sent <= t.barsSeq && forall p :: p in t.seats ==> SeatInv(t, t.seats[p])
  }

  lemma DeliveredSeat(t: Table, s: Seat, i: nat)
    requires SeatInv(t, s) && i < |s.queue|
    ensures SeatInv(t, Delivered(s, i))
  {
  }

  lemma BroadcastKeeps(t: Table)
    requires Inv(t)
    ensures Inv(Broadcast(t))
  {
  }

  lemma HandedKeeps(t: Table, p: Id)
    requires Inv(t)
    ensures Inv(Handed(t, p))
  {
  }

  lemma NextKeeps(t: Table, e: Event)
    requires Inv(t)
    ensures Inv(Next(t, e))
  {
    match e {
      case Hands(p) => HandedKeeps(t, p);
      case Broadcasts => BroadcastKeeps(t);
      case Delivers(p, i) => if p in t.seats && i < |t.seats[p].queue| { DeliveredSeat(t, t.seats[p], i); }
      case Changes(_) =>
      case Connects(_) =>
      case Leaves(_) =>
      case Starts =>
      case Rehydrates =>
    }
  }

  lemma {:induction false} AfterKeeps(t: Table, events: seq<Event>)
    requires Inv(t)
    ensures Inv(After(t, events))
  {
    if events != [] {
      AfterKeeps(t, events[..|events| - 1]);
      NextKeeps(After(t, events[..|events| - 1]), events[|events| - 1]);
    }
  }

  // ---------------------------------------------------------------- the room, read off the events

  /** Connected, and not gone since. */
  ghost predicate Seated(events: seq<Event>, p: Id) {
    exists i :: 0 <= i < |events| && events[i] == Connects(p)
      && forall j :: i < j < |events| ==> events[j] != Leaves(p)
  }

  ghost predicate WentLive(events: seq<Event>) {
    exists i :: 0 <= i < |events| && (events[i].Starts? || events[i].Rehydrates?)
  }

  /** What the session shows a player at the end: what the last change left. */
  function ViewNow(first: View, events: seq<Event>): View {
    if events == [] then first
    else if events[|events| - 1].Changes? then events[|events| - 1].view
    else ViewNow(first, events[..|events| - 1])
  }

  lemma SeatedThen(events: seq<Event>, e: Event, p: Id)
    ensures Seated(events + [e], p) <==> e == Connects(p) || (Seated(events, p) && e != Leaves(p))
    ensures WentLive(events + [e]) <==> WentLive(events) || e.Starts? || e.Rehydrates?
  {
    var all := events + [e];
    assert forall i :: 0 <= i < |events| ==> all[i] == events[i];
    assert all[|events|] == e;
    if Seated(events, p) && e != Leaves(p) {
      var i :| 0 <= i < |events| && events[i] == Connects(p)
        && forall j :: i < j < |events| ==> events[j] != Leaves(p);
      assert all[i] == Connects(p) && forall j :: i < j < |all| ==> all[j] != Leaves(p);
    }
    if WentLive(events) {
      var i :| 0 <= i < |events| && (events[i].Starts? || events[i].Rehydrates?);
      assert all[i].Starts? || all[i].Rehydrates?;
    }
  }

  function Empty(view: View, first: nat): Table { Table(view, first, None, false, false, map[], first) }

  /** Who is in the room, whether it is live and what there is to show are what the events made of them. */
  lemma {:induction false} TheRoomIs(view: View, first: nat, events: seq<Event>, p: Id)
    ensures var t := After(Empty(view, first), events);
      && (p in t.seats <==> Seated(events, p))
      && (t.live <==> WentLive(events))
      && t.view == ViewNow(view, events)
  {
    if events != [] {
      var init, e := events[..|events| - 1], events[|events| - 1];
      TheRoomIs(view, first, init, p);
      SeatedThen(init, e, p);
      assert init + [e] == events;
    }
  }

  // ---------------------------------------------------------------- the theorem

  ghost predicate OnlyDeliveries(events: seq<Event>) {
    forall i :: 0 <= i < |events| ==> events[i].Delivers?
  }

  lemma {:induction false} DeliveriesTellNothing(t: Table, events: seq<Event>)
    requires OnlyDeliveries(events)
    ensures var t' := After(t, events);
      t'.view == t.view && t'.last == t.last && t'.stale == t.stale && t'.live == t.live && t'.barsSeq == t.barsSeq
        && t'.sent == t.sent
  {
    if events != [] { DeliveriesTellNothing(t, events[..|events| - 1]); }
  }

  ghost predicate AllDelivered(t: Table) { forall p :: p in t.seats ==> t.seats[p].queue == [] }

  /** Whatever happened before, once a live room has broadcast and every message has arrived, every
      player who holds a view from this room holds the current one, sent to or spared. */
  lemma NobodyIsOutdated(view: View, barsSeq: nat, before: seq<Event>, deliveries: seq<Event>, p: Id)
    requires OnlyDeliveries(deliveries)
    ensures var t' := After(Broadcast(After(Empty(view, barsSeq), before)), deliveries);
      WentLive(before) && AllDelivered(t') && p in t'.seats && t'.seats[p].held.Some? ==>
        t'.seats[p].held.value.view == ViewNow(view, before)
  {
    var t0 := Empty(view, barsSeq);
    var t := After(t0, before);
    TheRoomIs(view, barsSeq, before, p);
    AfterKeeps(t0, before);
    BroadcastKeeps(t);
    AfterKeeps(Broadcast(t), deliveries);
    DeliveriesTellNothing(Broadcast(t), deliveries);
    var t' := After(Broadcast(t), deliveries);
    if t.live && AllDelivered(t') && p in t'.seats && t'.seats[p].held.Some? {
      var m :| t'.seats[p].Has(m) && m.stamp >= t'.sent;
      assert m == t'.seats[p].held.value;
    }
  }

  /** A copy is spared exactly when the cache is fresh and equal. */
  lemma SparedIff(t: Table, p: Id)
    requires t.live && p in t.seats
    ensures Broadcast(t).seats[p].queue == t.seats[p].queue <==> !t.stale && t.last == Some(t.view)
  {
    assert |(t.seats[p].queue + [Message(t.barsSeq + 1, t.view)])| == |t.seats[p].queue| + 1;
  }

  /** So nobody is spared a view they lack: over any run, a player a broadcast skips, with nothing still on the
      way to them, holds the current view already, if this room ever showed them one. */
  lemma TheSparedAreCurrent(view: View, first: nat, events: seq<Event>, p: Id)
    ensures var t := After(Empty(view, first), events);
      && (Seated(events, p) <==> p in t.seats)
      && (WentLive(events) && Seated(events, p) && t.seats[p].queue == [] && Broadcast(t).seats[p].queue == []
            && t.seats[p].held.Some? ==>
            t.seats[p].held.value.view == ViewNow(view, events))
  {
    var t := After(Empty(view, first), events);
    AfterKeeps(Empty(view, first), events);
    TheRoomIs(view, first, events, p);
    if t.live && p in t.seats && t.seats[p].queue == [] && Broadcast(t).seats[p].queue == [] && t.seats[p].held.Some? {
      SparedIff(t, p);
      assert SeatInv(t, t.seats[p]);
      var m :| t.seats[p].Has(m) && m.stamp >= t.sent;
      assert m == t.seats[p].held.value;
    }
  }

  /** A player handed the full state of a live room is sent the view of that instant under the room's number,
      after what was already on its way; nobody else is sent anything. */
  lemma HandedIsSent(t: Table, p: Id)
    requires t.live && p in t.seats
    ensures var t' := Handed(t, p);
      && t'.seats.Keys == t.seats.Keys && t'.seats[p].held == t.seats[p].held
      && t'.seats[p].queue == t.seats[p].queue + [Message(t.barsSeq, t.view)]
      && (forall q :: q in t.seats && q != p ==> t'.seats[q] == t.seats[q])
      && t'.view == t.view && t'.barsSeq == t.barsSeq
  {
  }

  /** Whoever a broadcast does not spare is sent the view of that instant under a new number, everyone alike;
      a spared one is sent nothing, and the number moves on all the same. */
  lemma BroadcastIsSent(t: Table, p: Id)
    requires t.live && p in t.seats
    ensures var t' := Broadcast(t);
      && t'.seats.Keys == t.seats.Keys && t'.seats[p].held == t.seats[p].held && t'.barsSeq == t.barsSeq + 1
      && t'.seats[p].queue == t.seats[p].queue +
         (if t.stale || t.last != Some(t.view) then [Message(t.barsSeq + 1, t.view)] else [])
  {
  }

  /** A message that arrives leaves the queue and is held, unless a higher number already is. */
  lemma DeliveredIsHeld(s: Seat, i: nat)
    requires i < |s.queue|
    ensures var s' := Delivered(s, i);
      && multiset(s'.queue) + multiset{s.queue[i]} == multiset(s.queue)
      && s'.held == (if s.held.Some? && s.held.value.stamp > s.queue[i].stamp then s.held else Some(s.queue[i]))
  {
    assert s.queue == s.queue[..i] + [s.queue[i]] + s.queue[i + 1..];
  }

  lemma {:induction false} SeatedStays(t: Table, events: seq<Event>, p: Id)
    requires OnlyDeliveries(events) && p in t.seats
    ensures p in After(t, events).seats
    ensures t.seats[p].held.Some? || t.seats[p].queue != [] ==>
      After(t, events).seats[p].held.Some? || After(t, events).seats[p].queue != []
  {
    if events != [] { SeatedStays(t, events[..|events| - 1], p); }
  }

  /** So over any run, a player the live room hands its full state to does hold the current view once every
      message has arrived and the room has broadcast. */
  lemma TheHandedHold(view: View, first: nat, before: seq<Event>, deliveries: seq<Event>, p: Id)
    requires OnlyDeliveries(deliveries)
    requires WentLive(before) && Seated(before, p)
    ensures var t' := After(Broadcast(After(Empty(view, first), before + [Hands(p)])), deliveries);
      && p in t'.seats
      && (AllDelivered(t') ==>
            t'.seats[p].held.Some? && t'.seats[p].held.value.view == ViewNow(view, before))
  {
    var t0 := Empty(view, first);
    var t := After(t0, before);
    TheRoomIs(view, first, before, p);
    HandedIsSent(t, p);
    BroadcastIsSent(Handed(t, p), p);
    SeatedStays(Broadcast(Handed(t, p)), deliveries, p);
    assert (before + [Hands(p)])[..|before|] == before;
    TheRoomIs(view, first, before + [Hands(p)], p);
    NobodyIsOutdated(view, first, before + [Hands(p)], deliveries, p);
  }
}
