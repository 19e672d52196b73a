/** The map attached to a match and the match's own board: a saved row counts only as a portrait of the map
    attached now. */
module MapAttach {
  import opened Prelude

  datatype MatchInfo = MatchInfo(master: Id, campaign: Id, started: bool)

  /** A board: the map it is a portrait of, and everything on it. */
  datatype Portrait = Portrait(source: Id, picture: nat)

  /** attached is match_maps and boards match_boards; maps holds each map as it is drawn now. */
  datatype Tables = Tables(matches: map<Id, MatchInfo>, attached: map<Id, Id>, boards: map<Id, Portrait>,
    maps: map<Id, nat>)

  datatype Error =
    | MatchNotFound | NotMatchMaster | AlreadyStarted | SourceIsTheSameMatch | SourceNotInCampaign
    | SourceHasNoBoard | SourceOnAnotherMap | MapNotFound | NoMapAttached | Failed

  datatype LoadResult = NoBoard | Board(portrait: Portrait) | LoadFailed

  /** Which call to the database fails in one Attach, if any: a read or the attach itself, before anything
      is written; or the copy or deletion after it. */
  datatype Fault = NoFault | EarlyFault | LateFault

  // ---------------------------------------------------------------- the use cases' outcomes

  function Previous(db: Tables, m: Id): Option<Id> { if m in db.attached then Some(db.attached[m]) else None }

  /** What Attach refuses before it writes. */
  function Refusal(db: Tables, requester: Id, m: Id, newMap: Id, inherit: Option<Id>): Option<Error> {
    if m !in db.matches then Some(MatchNotFound)
    else if db.matches[m].master != requester then Some(NotMatchMaster)
    else if db.matches[m].started then Some(AlreadyStarted)
    else if inherit.None? then None
    else
      var src := inherit.value;
      if src == m then Some(SourceIsTheSameMatch)
      else if src !in db.matches then Some(MatchNotFound)
      else if db.matches[src].campaign != db.matches[m].campaign then Some(SourceNotInCampaign)
      else if src !in db.boards then Some(SourceHasNoBoard)
      else if db.boards[src].source != newMap then Some(SourceOnAnotherMap)
      else None
  }

  function Without(boards: map<Id, Portrait>, m: Id): map<Id, Portrait> { boards - {m} }

  function AttachOutcome(db: Tables, requester: Id, m: Id, newMap: Id, inherit: Option<Id>, fault: Fault)
    : (Tables, Option<Error>)
  {
    var refusal := Refusal(db, requester, m, newMap, inherit);
    if refusal.Some? then (db, refusal)
    else if fault.EarlyFault? || newMap !in db.maps then (db, Some(Failed))
    else
      var prev := Previous(db, m);
      var attached := db.(attached := db.attached[m := newMap]);
      if inherit.Some? then
        if fault.LateFault? || inherit.value !in db.boards then (attached, Some(Failed))
        else (attached.(boards := db.boards[m := db.boards[inherit.value]]), None)
      else if prev.Some? && prev.value != newMap then
        if fault.LateFault? then (attached, Some(Failed)) else (attached.(boards := Without(db.boards, m)), None)
      else (attached, None)
  }

  function DetachOutcome(db: Tables, requester: Id, m: Id): (Tables, Option<Error>) {
    if m !in db.matches then (db, Some(MatchNotFound))
    else if db.matches[m].master != requester then (db, Some(NotMatchMaster))
    else if db.matches[m].started then (db, Some(AlreadyStarted))
    else if m !in db.attached then (db, Some(NoMapAttached))
    else (db.(attached := db.attached - {m}), None)
  }

  function LoadOf(db: Tables, m: Id): LoadResult {
    if m !in db.attached then NoBoard
    else if m in db.boards && db.boards[m].source == db.attached[m] then Board(db.boards[m])
    else if db.attached[m] in db.maps then Board(Portrait(db.attached[m], db.maps[db.attached[m]]))
    else LoadFailed
  }

  // ---------------------------------------------------------------- as they are written

  class MapUseCases {
    var db: Tables

    method Attach(requester: Id, m: Id, newMap: Id, inherit: Option<Id>, fault: Fault) returns (err: Option<Error>)
      modifies this
      ensures (db, err) == AttachOutcome(old(db), requester, m, newMap, inherit, fault)
    {
      if m !in db.matches { return Some(MatchNotFound); }
      var info := db.matches[m];
      if info.master != requester { return Some(NotMatchMaster); }
      if info.started { return Some(AlreadyStarted); }
      var prev := if m in db.attached then Some(db.attached[m]) else None;
      if inherit.Some? {
        var src := inherit.value;
        if src == m { return Some(SourceIsTheSameMatch); }
        if src !in db.matches { return Some(MatchNotFound); }
        if db.matches[src].campaign != info.campaign { return Some(SourceNotInCampaign); }
        if src !in db.boards { return Some(SourceHasNoBoard); }
        if db.boards[src].source != newMap { return Some(SourceOnAnotherMap); }
      }
      if fault.EarlyFault? || newMap !in db.maps { return Some(Failed); }
      db := db.(attached := db.attached[m := newMap]);
      if inherit.Some? {
        if fault.LateFault? { return Some(Failed); }
        db := db.(boards := db.boards[m := db.boards[inherit.value]]);
      } else if prev.Some? && prev.value != newMap {
        if fault.LateFault? { return Some(Failed); }
        db := db.(boards := db.boards - {m});
      }
      return None;
    }

    method Detach(requester: Id, m: Id) returns (err: Option<Error>)
      modifies this
      ensures (db, err) == DetachOutcome(old(db), requester, m)
    {
      if m !in db.matches { return Some(MatchNotFound); }
      if db.matches[m].master != requester { return Some(NotMatchMaster); }
      if db.matches[m].started { return Some(AlreadyStarted); }
      if m !in db.attached { return Some(NoMapAttached); }
      db := db.(attached := db.attached - {m});
      return None;
    }

    method Load(m: Id) returns (loaded: LoadResult)
      ensures loaded == LoadOf(db, m)
    {
      if m !in db.attached { return NoBoard; }
      var mapId := db.attached[m];
      if m in db.boards && db.boards[m].source == mapId { return Board(db.boards[m]); }
      if mapId !in db.maps { return LoadFailed; }
      return Board(Portrait(mapId, db.maps[mapId]));
    }

    method Save(m: Id, portrait: Portrait)
      modifies this
      ensures db == old(db).(boards := old(db).boards[m := portrait])
    {
      db := db.(boards := db.boards[m := portrait]);
    }
  }

  // ---------------------------------------------------------------- runs

  datatype Op =
    | Attaching(requester: Id, m: Id, newMap: Id, inherit: Option<Id>, fault: Fault)
    | Detaching(requester: Id, m: Id)
    | Saving(m: Id, portrait: Portrait)
    /** A map is created, or drawn over: the portraits of it do not follow. */
    | Drawing(mapId: Id, picture: nat)
    /** A map is deleted; match_maps and match_boards restrict it while either names the map. */
    | Erasing(mapId: Id)
    | Starting(m: Id)

  function Next(db: Tables, op: Op): Tables {
    match op
    case Attaching(requester, m, newMap, inherit, fault) => AttachOutcome(db, requester, m, newMap, inherit, fault).0
    case Detaching(requester, m) => DetachOutcome(db, requester, m).0
    case Saving(m, portrait) => db.(boards := db.boards[m := portrait])
    case Drawing(mapId, picture) => db.(maps := db.maps[mapId := picture])
    case Erasing(mapId) =>
      if (exists m :: m in db.attached && db.attached[m] == mapId)
          || (exists m :: m in db.boards && db.boards[m].source == mapId)
      then db else db.(maps := db.maps - {mapId})
    case Starting(m) => if m in db.matches then db.(matches := db.matches[m := db.matches[m].(started := true)]) else db
  }

  function After(db: Tables, ops: seq<Op>): Tables {
    if ops == [] then db else Next(After(db, ops[..|ops| - 1]), ops[|ops| - 1])
  }

  ghost predicate MapsExist(db: Tables) { forall m :: m in db.attached ==> db.attached[m] in db.maps }

  lemma {:induction false} MapsStay(db: Tables, ops: seq<Op>)
    requires MapsExist(db)
    ensures MapsExist(After(db, ops))
  {
    if ops != [] { MapsStay(db, ops[..|ops| - 1]); }
  }

  /** Over every run, a copy or a deletion failing after the attach was written included: Load answers no
      board iff no map is attached, and otherwise a board of the map attached now. */
  lemma LoadShowsTheAttachedMap(db: Tables, ops: seq<Op>, m: Id)
    requires MapsExist(db)
    ensures var now := After(db, ops);
      match LoadOf(now, m)
      case NoBoard => m !in now.attached
      case Board(portrait) => m in now.attached && portrait.source == now.attached[m]
      case LoadFailed => false
  {
    MapsStay(db, ops);
  }

  /** The one way a match's saved row changes through Attach, exactly: an inherited board was copied over
      it, or another map replaced the one attached and the deletion went through. */
  lemma RowGoesIff(db: Tables, requester: Id, m: Id, newMap: Id, inherit: Option<Id>, fault: Fault)
    requires m in db.boards
    requires inherit.Some? && inherit.value in db.boards ==> db.boards[inherit.value] != db.boards[m]
    ensures var (now, err) := AttachOutcome(db, requester, m, newMap, inherit, fault);
      (m !in now.boards || now.boards[m] != db.boards[m]) <==>
      (err.None? && (inherit.Some? || (m in db.attached && db.attached[m] != newMap)))
  {
  }

  /** What Load shows after an Attach that got through. A detach leaves nothing to compare with, so a row of
      the same map comes back with it. */
  lemma LoadAfterAttach(db: Tables, requester: Id, m: Id, newMap: Id, inherit: Option<Id>)
    requires AttachOutcome(db, requester, m, newMap, inherit, NoFault).1.None?
    ensures var now := AttachOutcome(db, requester, m, newMap, inherit, NoFault).0;
      && m in now.attached && now.attached[m] == newMap && newMap in db.maps
      && LoadOf(now, m) == (
         if inherit.Some? && inherit.value in db.boards then Board(db.boards[inherit.value])
         else if m in db.attached && db.attached[m] == newMap then LoadOf(db, m)
         else if m !in db.attached && m in db.boards && db.boards[m].source == newMap then Board(db.boards[m])
         else Board(Portrait(newMap, db.maps[newMap])))
      && forall other :: other != m ==> LoadOf(now, other) == LoadOf(db, other)
  {
  }

  /** The steps under which a divergence is safe: m is attached to no other map and inherits nothing. */
  predicate Spares(op: Op, m: Id, home: Id) {
    match op
    case Attaching(_, n, newMap, inherit, _) => n != m || (newMap == home && inherit.None?)
    case Saving(n, _) => n != m
    case Detaching(_, _) => true
    case Drawing(_, _) => true
    case Erasing(_) => true
    case Starting(_) => true
  }

  /** A saved divergence survives any run of detaching and attaching the same map again, whatever fails and
      however the map is redrawn meanwhile; and while the map is attached, it is what Load shows. */
  lemma {:induction false} DivergenceSurvives(db: Tables, ops: seq<Op>, m: Id, home: Id)
    requires m in db.boards && db.boards[m].source == home && (m in db.attached ==> db.attached[m] == home)
    requires forall i :: 0 <= i < |ops| ==> Spares(ops[i], m, home)
    ensures var now := After(db, ops);
      && m in now.boards && now.boards[m] == db.boards[m]
      && (m in now.attached ==> now.attached[m] == home && LoadOf(now, m) == Board(db.boards[m]))
  {
    if ops != [] {
      var before, op := After(db, ops[..|ops| - 1]), ops[|ops| - 1];
      DivergenceSurvives(db, ops[..|ops| - 1], m, home);
      assert Spares(op, m, home);
      if op.Attaching? && op.m == m {
        RowGoesIff(before, op.requester, m, op.newMap, op.inherit, op.fault);
        assert op.inherit.None? && (m in before.attached ==> before.attached[m] == op.newMap);
      }
    }
  }

  /** Two ways round to the same map: detaching it first brings the divergence back; attaching another map in
      between loses it, and the map is shown as it is drawn now. */
  lemma WaysBack(db: Tables, requester: Id, m: Id, home: Id, other: Id)
    requires m in db.matches && db.matches[m].master == requester && !db.matches[m].started
    requires m in db.attached && db.attached[m] == home && m in db.boards && db.boards[m].source == home
    requires home in db.maps && other in db.maps && other != home
    ensures LoadOf(Next(Next(db, Detaching(requester, m)), Attaching(requester, m, home, None, NoFault)), m) ==
      Board(db.boards[m])
    ensures var away := Next(db, Attaching(requester, m, other, None, NoFault));
      LoadOf(Next(away, Attaching(requester, m, home, None, NoFault)), m) == Board(Portrait(home, db.maps[home]))
  {
    LoadAfterAttach(Next(db, Detaching(requester, m)), requester, m, home, None);
    LoadAfterAttach(db, requester, m, other, None);
    LoadAfterAttach(Next(db, Attaching(requester, m, other, None, NoFault)), requester, m, home, None);
  }

  /** The match's master, before it starts. */
  predicate InCharge(db: Tables, requester: Id, m: Id) {
    m in db.matches && db.matches[m].master == requester && !db.matches[m].started
  }

  /** Who may attach what: the match's master, before it starts, an existing map, and — to inherit — another
      match of the same campaign with a board of that very map. */
  predicate MayAttach(db: Tables, requester: Id, m: Id, newMap: Id, inherit: Option<Id>) {
    && InCharge(db, requester, m) && newMap in db.maps
    && (inherit.Some? ==>
          && inherit.value != m && inherit.value in db.matches
          && db.matches[inherit.value].campaign == db.matches[m].campaign
          && inherit.value in db.boards && db.boards[inherit.value].source == newMap)
  }

  /** An attach that the database answers for goes through exactly when it may. One whose copy or deletion
      fails has attached the map all the same; with neither to make, there is nothing left to fail. */
  lemma AttachedIff(db: Tables, requester: Id, m: Id, newMap: Id, inherit: Option<Id>)
    ensures AttachOutcome(db, requester, m, newMap, inherit, NoFault).1.None? <==>
      MayAttach(db, requester, m, newMap, inherit)
    ensures MayAttach(db, requester, m, newMap, inherit) ==>
      var more := inherit.Some? || (m in db.attached && db.attached[m] != newMap);
      AttachOutcome(db, requester, m, newMap, inherit, LateFault) ==
        (db.(attached := db.attached[m := newMap]), if more then Some(Failed) else None)
  {
  }

  /** Which refusal each caller gets, exactly: the match and its master first, then its start, then what is
      wrong with the source, in this order; a missing map and a failed call are one and the same. */
  lemma RefusedWith(db: Tables, requester: Id, m: Id, newMap: Id, inherit: Option<Id>, fault: Fault)
    ensures var err := AttachOutcome(db, requester, m, newMap, inherit, fault).1;
      && (m !in db.matches ==> err == Some(MatchNotFound))
      && (m in db.matches && db.matches[m].master != requester ==> err == Some(NotMatchMaster))
      && (m in db.matches && db.matches[m].master == requester && db.matches[m].started ==>
            err == Some(AlreadyStarted))
      && (InCharge(db, requester, m) && inherit.Some? ==>
            var src := inherit.value;
            && (src == m ==> err == Some(SourceIsTheSameMatch))
            && (src != m && src !in db.matches ==> err == Some(MatchNotFound))
            && (src != m && src in db.matches ==>
                  var other := db.matches[src].campaign != db.matches[m].campaign;
                  && (other ==> err == Some(SourceNotInCampaign))
                  && (!other && src !in db.boards ==> err == Some(SourceHasNoBoard))
                  && (!other && src in db.boards && db.boards[src].source != newMap ==>
                        err == Some(SourceOnAnotherMap))))
      && (err == Some(Failed) ==>
            InCharge(db, requester, m) && (newMap !in db.maps || !fault.NoFault?))
  {
  }

  /** From the moment a match starts, over any run, the map it has attached is never another: no attach and
      no detach gets past it, whoever asks. */
  lemma {:induction false} FrozenOnceStarted(db: Tables, ops: seq<Op>, k: nat, m: Id)
    requires k < |ops| && ops[k] == Starting(m) && m in db.matches
    ensures var before, now := After(db, ops[..k]), After(db, ops);
      && m in now.matches && now.matches[m].started
      && Previous(now, m) == Previous(before, m)
  {
    var n := |ops| - 1;
    if k < n {
      assert ops[..n][k] == ops[k] && ops[..n][..k] == ops[..k];
      FrozenOnceStarted(db, ops[..n], k, m);
      StartedStays(After(db, ops[..n]), ops[n], m);
    } else {
      MatchesStay(db, ops[..n], m);
    }
  }

  lemma StartedStays(db: Tables, op: Op, m: Id)
    requires m in db.matches && db.matches[m].started
    ensures var now := Next(db, op); m in now.matches && now.matches[m].started && Previous(now, m) == Previous(db, m)
  {
  }

  lemma {:induction false} MatchesStay(db: Tables, ops: seq<Op>, m: Id)
    requires m in db.matches
    ensures m in After(db, ops).matches
  {
    if ops != [] { MatchesStay(db, ops[..|ops| - 1], m); }
  }

  /** Whatever is answered, an attach touches its own match alone, and one that was refused or failed before
      the write touches nothing. */
  lemma AttachTouches(db: Tables, requester: Id, m: Id, newMap: Id, inherit: Option<Id>, fault: Fault)
    ensures var (now, err) := AttachOutcome(db, requester, m, newMap, inherit, fault);
      && now.matches == db.matches && now.maps == db.maps
      && now.attached - {m} == db.attached - {m} && now.boards - {m} == db.boards - {m}
      && (fault.EarlyFault? ==> now == db && err.Some?)
      && (err.None? ==> m in now.attached && now.attached[m] == newMap)
      && (now != db ==> m in now.attached && now.attached[m] == newMap)
  {
  }

  /** A detach needs the match's master, before it starts, and a map attached; it takes the attachment and
      nothing else. */
  lemma DetachedIff(db: Tables, requester: Id, m: Id)
    ensures var (now, err) := DetachOutcome(db, requester, m);
      && (err.None? <==>
            m in db.matches && db.matches[m].master == requester && !db.matches[m].started && m in db.attached)
      && (m !in db.matches <==> err == Some(MatchNotFound))
      && (m in db.matches && db.matches[m].master != requester <==> err == Some(NotMatchMaster))
      && (InCharge(db, requester, m) && m !in db.attached <==> err == Some(NoMapAttached))
      && now == if err.None? then db.(attached := db.attached - {m}) else db
  {
  }
}
