/** No HP is lost to a failed close: a sheet whose bars in memory and on disk disagree because of a
    close stays marked until a close writes it. Granularity: commands. */
module SheetInvariant {
  import opened Prelude
  import opened Store
  import opened Session
  import opened RoomSpec
  import opened LiveView

  // ---------------------------------------------------------------- what one close writes

  /** Row by row, what writing the bars of ids leaves: exactly the complete sheets among them. */
  lemma {:induction false} StatusBarsWritten(rows: map<Id, Bars>, mem: map<Id, Bars>, ids: set<Id>)
    ensures var after := WriteBars(rows, StatusBars(mem, ids));
      && after.Keys == rows.Keys
      && (forall c :: c in rows ==> after[c] == if c in ids && Writable(mem, c) then mem[c] else rows[c])
  {
    if ids != {} {
      MaxExists(ids);
      var m :| IsMax(ids, m) && StatusBars(mem, ids) ==
        StatusBars(mem, ids - {m}) + (if Writable(mem, m) then [SheetStatusBars(m, mem[m])] else []);
      StatusBarsWritten(rows, mem, ids - {m});
      if Writable(mem, m) {
        assert StatusBars(mem, ids)[..|StatusBars(mem, ids)| - 1] == StatusBars(mem, ids - {m});
      } else {
        assert StatusBars(mem, ids) == StatusBars(mem, ids - {m});
      }
    }
  }

  predicate EntryOf(mem: map<Id, Bars>, ids: set<Id>, entry: SheetStatusBars) {
    var c := entry.character;
    c in ids && c in mem && mem[c].health.Some? && mem[c].stamina.Some? && mem[c].aura.Some? && entry.bars == mem[c]
  }

  ghost predicate BarsOf(mem: map<Id, Bars>, ids: set<Id>, bars: seq<SheetStatusBars>) {
    && (forall i :: 0 <= i < |bars| ==> EntryOf(mem, ids, bars[i]))
    && (forall i, j :: 0 <= i < j < |bars| ==> bars[i].character < bars[j].character)
    && (forall c :: c in ids && Writable(mem, c) ==> exists i :: 0 <= i < |bars| && bars[i].character == c)
  }

  lemma BarsGrow(mem: map<Id, Bars>, ids: set<Id>, m: Id, rest: seq<SheetStatusBars>, bars: seq<SheetStatusBars>)
    requires IsMax(ids, m) && BarsOf(mem, ids - {m}, rest)
    requires bars == rest + if Writable(mem, m) then [SheetStatusBars(m, mem[m])] else []
    ensures BarsOf(mem, ids, bars)
  {
    forall i | 0 <= i < |bars| ensures EntryOf(mem, ids, bars[i]) {
      if i < |rest| { assert bars[i] == rest[i] && EntryOf(mem, ids - {m}, rest[i]); }
    }
    forall i, j | 0 <= i < j < |bars| ensures bars[i].character < bars[j].character {
      assert bars[i] == rest[i] && EntryOf(mem, ids - {m}, rest[i]);
      if j < |rest| { assert bars[j] == rest[j]; }
    }
    forall c | c in ids && Writable(mem, c) ensures exists i :: 0 <= i < |bars| && bars[i].character == c {
      if c == m {
        assert bars[|rest|].character == c;
      } else {
        var i :| 0 <= i < |rest| && rest[i].character == c;
        assert bars[i].character == c;
      }
    }
  }

  /** The bars a close hands over, exactly: one entry for each complete sheet among ids, with its own bars, and
      the ids rise along them. */
  lemma {:induction false} StatusBarsAre(mem: map<Id, Bars>, ids: set<Id>)
    ensures BarsOf(mem, ids, StatusBars(mem, ids))
  {
    if ids != {} {
      MaxExists(ids);
      var m :| IsMax(ids, m) && StatusBars(mem, ids) ==
        StatusBars(mem, ids - {m}) + (if Writable(mem, m) then [SheetStatusBars(m, mem[m])] else []);
      StatusBarsAre(mem, ids - {m});
      BarsGrow(mem, ids, m, StatusBars(mem, ids - {m}), StatusBars(mem, ids));
    }
  }

  /** What the hits that hurt c add up to. */
  function DamageTo(hits: seq<Hit>, c: Id): int {
    if hits == [] then 0
    else
      var h := hits[|hits| - 1];
      DamageTo(hits[..|hits| - 1], c) + if h.character == c && h.damage > 0 then h.damage else 0
  }

  predicate Named(hits: seq<Hit>, c: Id) { exists i :: 0 <= i < |hits| && hits[i].character == c && hits[i].damage > 0 }

  lemma {:induction false} DamageIsNotNegative(hits: seq<Hit>, c: Id)
    ensures DamageTo(hits, c) >= 0
    ensures DamageTo(hits, c) > 0 <==> Named(hits, c)
  {
    if hits != [] {
      var init := hits[..|hits| - 1];
      DamageIsNotNegative(init, c);
      assert forall i :: 0 <= i < |init| ==> init[i] == hits[i];
      if Named(init, c) {
        var i :| 0 <= i < |init| && init[i].character == c && init[i].damage > 0;
        assert hits[i].character == c && hits[i].damage > 0;
      }
    }
  }

  /** was less that much damage: health falls by it, down to its floor and no further; floor and ceiling,
      stamina and aura do not move; and a sheet without health takes none. */
  predicate HurtBy(was: Bars, taken: int, now: Bars) {
    && now.stamina == was.stamina && now.aura == was.aura && now.health.Some? == was.health.Some?
    && (was.health.Some? ==>
          var floor := was.health.value.min;
          && now.health.value.min == floor && now.health.value.max == was.health.value.max
          && now.health.value.cur ==
             if taken == 0 then was.health.value.cur
             else if was.health.value.cur - taken < floor then floor else was.health.value.cur - taken)
  }

  /** The close's damage, over any hits: a character takes all of them together. */
  lemma {:induction false} HealthAfter(mem: map<Id, Bars>, hits: seq<Hit>, c: Id)
    requires c in mem
    ensures c in ApplyHits(mem, hits) && HurtBy(mem[c], DamageTo(hits, c), ApplyHits(mem, hits)[c])
  {
    DamageIsNotNegative(hits, c);
    if hits != [] {
      HealthAfter(mem, hits[..|hits| - 1], c);
      DamageIsNotNegative(hits[..|hits| - 1], c);
    }
  }

  /** Who a close reports as damaged: exactly the characters some positive hit named who have health. */
  lemma {:induction false} DamagedIff(mem: map<Id, Bars>, hits: seq<Hit>, c: Id)
    ensures c in ToSet(Damaged(mem, hits)) <==> c in mem && mem[c].health.Some? && Named(hits, c)
  {
    if hits != [] {
      var init, h := hits[..|hits| - 1], hits[|hits| - 1];
      var was, now := Damaged(mem, init), Damaged(mem, hits);
      DamagedIff(mem, init, c);
      DamageIsNotNegative(init, c);
      DamageIsNotNegative(hits, c);
      DamageReported(mem, init);
      if h.character in mem { HealthAfter(mem, init, h.character); }
      assert forall i :: 0 <= i < |was| ==> now[i] == was[i];
      assert c in ToSet(now) <==> c in ToSet(was) || (c == h.character && Lands(ApplyHits(mem, init), h)) by {
        if Lands(ApplyHits(mem, init), h) { assert now[|was|] == h.character; }
      }
    }
  }

  /** Damage is only of who is reported, and no bar appears or goes. */
  lemma {:induction false} DamageReported(mem: map<Id, Bars>, hits: seq<Hit>)
    ensures var after := ApplyHits(mem, hits);
      && after.Keys == mem.Keys
      && (forall c :: c in mem ==> after[c].Complete() == mem[c].Complete())
      && (forall c :: c in mem && c !in ToSet(Damaged(mem, hits)) ==> after[c] == mem[c])
      && ToSet(Damaged(mem, hits)) <= mem.Keys
  {
    if hits != [] {
      var init := hits[..|hits| - 1];
      DamageReported(mem, init);
      var was, now := Damaged(mem, init), Damaged(mem, hits);
      assert forall i :: 0 <= i < |was| ==> now[i] == was[i];
      assert ToSet(was) <= ToSet(now);
      if Lands(ApplyHits(mem, init), hits[|hits| - 1]) {
        assert now[|was|] == hits[|hits| - 1].character;
        assert ToSet(now) == ToSet(was) + {hits[|hits| - 1].character};
      }
    }
  }

  // ---------------------------------------------------------------- the invariant

  /** edited are the sheets changed on disk, over REST, since the room was born. */
  ghost predicate SheetInv(v: Live, edited: set<Id>) {
    && v.mem.Keys <= v.sheets.Keys
    && v.unwritten <= v.mem.Keys
    && forall c :: c in v.mem && v.mem[c].Complete() && v.mem[c] != v.sheets[c] ==> c in v.unwritten || c in edited
  }

  lemma VerbFields(v: Live, b: Verb, v': Live)
    requires Carries(v, b, v')
    ensures v'.mem == if v.current.Some? then ApplyHits(v.mem, b.hits) else v.mem
    ensures v'.unwritten == if v.current.None? then v.unwritten else if b.ok then {}
      else v.unwritten + DamagedIn(v, b.hits)
    ensures v'.sheets ==
      if v.current.Some? && b.ok then WriteBars(v.sheets, StatusBars(v'.mem, v.unwritten + DamagedIn(v, b.hits)))
          else v.sheets
  {
  }

  /** What one turn-closing verb does to the sheets, row by row. */
  ghost predicate SheetsMoved(v: Live, damaged: set<Id>, ok: bool, v': Live) {
    && v'.mem.Keys == v.mem.Keys && v'.sheets.Keys == v.sheets.Keys && damaged <= v.mem.Keys
    && (forall c :: c in v.mem ==> v'.mem[c].Complete() == v.mem[c].Complete())
    && (forall c :: c in v.mem && c !in damaged ==> v'.mem[c] == v.mem[c])
    && (forall c :: c in v.sheets ==>
          v'.sheets[c] == if ok && c in v.unwritten + damaged && Writable(v'.mem, c) then v'.mem[c] else v.sheets[c])
    && v'.unwritten == (if ok then {} else v.unwritten + damaged)
  }

  lemma VerbSheets(v: Live, b: Verb, v': Live)
    requires Carries(v, b, v')
    ensures if v.current.Some? then SheetsMoved(v, DamagedIn(v, b.hits), b.ok, v')
            else v'.mem == v.mem && v'.sheets == v.sheets && v'.unwritten == v.unwritten
  {
    VerbFields(v, b, v');
    DamageReported(v.mem, b.hits);
    StatusBarsWritten(v.sheets, v'.mem, v.unwritten + DamagedIn(v, b.hits));
  }

  lemma MovedKeeps(v: Live, damaged: set<Id>, ok: bool, v': Live, edited: set<Id>)
    requires SheetInv(v, edited) && SheetsMoved(v, damaged, ok, v')
    ensures SheetInv(v', edited)
  {
  }

  lemma VerbKeepsSheets(v: Live, b: Verb, v': Live, edited: set<Id>)
    requires Carries(v, b, v') && SheetInv(v, edited)
    ensures SheetInv(v', edited)
  {
    VerbSheets(v, b, v');
    if v.current.Some? { MovedKeeps(v, DamagedIn(v, b.hits), b.ok, v', edited); }
  }

  function EditedAfter(c: Command, edited: set<Id>): set<Id> {
    if c.Restart? then {} else if c.EditSheet? then edited + {c.character} else edited
  }

  lemma {:induction false} CancelledAllSheets(v: Live, recs: seq<Record>, inserted: seq<bool>)
    requires |recs| == |inserted|
    ensures var v' := CancelledAll(v, recs, inserted);
      v'.mem == v.mem && v'.sheets == v.sheets && v'.unwritten == v.unwritten
  {
    if recs != [] { CancelledAllSheets(v, recs[..|recs| - 1], inserted[..|recs| - 1]); }
  }

  lemma StepSheets(v: Live, c: Command, v': Live, edited: set<Id>)
    requires LiveStep(v, c, v') && SheetInv(v, edited)
    ensures SheetInv(v', EditedAfter(c, edited))
  {
    if IsVerb(c) {
      if v' != v {
        var b: Verb :| b.hits == c.hits && Carries(v, b, v');
        VerbKeepsSheets(v, b, v', edited);
      }
    } else if c.MasterAction? {
      MasterSheets(v, c.touches, v');
    } else if c.CancelActions? {
      var recs, inserted :| CancelStepBy(v, v', recs, inserted);
      CancelledAllSheets(v, recs, inserted);
    }
  }

  lemma MasterSheets(v: Live, touches: bool, v': Live)
    requires MasterStep(v, touches, v')
    ensures v'.mem == v.mem && v'.sheets == v.sheets && v'.unwritten == v.unwritten
  {
  }

  // ---------------------------------------------------------------- runs

  function Edited(commands: seq<Command>): set<Id> {
    if commands == [] then {} else EditedAfter(commands[|commands| - 1], Edited(commands[..|commands| - 1]))
  }

  lemma {:induction false} RunSheets(w: World, commands: seq<Command>)
    requires SheetInv(LiveOf(w), {})
    ensures SheetInv(LiveOf(Run(w, commands)), Edited(commands))
  {
    if commands != [] {
      var before := Run(w, commands[..|commands| - 1]);
      RunSheets(w, commands[..|commands| - 1]);
      StepLive(before, commands[|commands| - 1]);
      StepSheets(LiveOf(before), commands[|commands| - 1], LiveOf(Run(w, commands)),
        Edited(commands[..|commands| - 1]));
    }
  }

  /** After every command of every run: a complete sheet nobody edited over REST whose bars in memory
      and on disk differ is still to be written. */
  lemma HealthIsNeverLost(sheets: map<Id, Bars>, mapped: bool, birthUp: bool, commands: seq<Command>, c: Id)
    ensures var w := Run(Genesis(sheets, mapped, birthUp), commands);
      c in w.s.sheets && w.s.sheets[c].Complete() && c !in Edited(commands) ==>
        c in w.disk.sheets && (w.s.sheets[c] != w.disk.sheets[c] ==> c in w.unwritten)
  {
    GenesisLive(sheets, mapped, birthUp);
    RunSheets(Genesis(sheets, mapped, birthUp), commands);
  }

  /** What a close does, exactly. One that commits writes every complete sheet it or an earlier failed
      close damaged, no other, and leaves nothing marked; one that fails writes none and marks who it
      damaged. */
  lemma CloseWritesExactly(w: World, c: Command)
    requires IsVerb(c) && Closes(w, c) && w.s.current.value !in w.disk.turns
    ensures var w' := Step(w, c);
      var toWrite := w.unwritten + ToSet(Damaged(w.s.sheets, c.hits));
      var committed := w.s.current.value in w'.disk.turns;
      && w'.unwritten == (if committed then {} else toWrite)
      && w'.disk.sheets.Keys == w.disk.sheets.Keys
      && forall ch :: ch in w.disk.sheets ==>
           w'.disk.sheets[ch] == if committed && ch in toWrite && Writable(w'.s.sheets, ch) then w'.s.sheets[ch]
             else w.disk.sheets[ch]
  {
    var b := VerbLive(w, c);
    VerbTurns(LiveOf(w), b, LiveOf(Step(w, c)));
    VerbSheets(LiveOf(w), b, LiveOf(Step(w, c)));
  }

  lemma VerbMem(w: World, c: Command)
    requires IsVerb(c)
    ensures Step(w, c).s.sheets == if Closes(w, c) then ApplyHits(w.s.sheets, c.hits) else w.s.sheets
  {
    if Closes(w, c) {
      var b := VerbLive(w, c);
      VerbFields(LiveOf(w), b, LiveOf(Step(w, c)));
    } else if c.OpenNext? {
      var b := OpenNextLive(w, c);
      VerbFields(LiveOf(w), b, LiveOf(Step(w, c)));
    } else if c.Pull? && !c.blocked {
      var b := PullLive(w, c);
      VerbFields(LiveOf(w), b, LiveOf(Step(w, c)));
    }
  }

  /** What any command does to a sheet in the room's memory: the close of a turn makes its character take what
      the turn's hits add up to; a restart reads it back from disk; nothing else touches it. */
  lemma SheetAfter(w: World, c: Command, ch: Id)
    requires !c.Restart? && ch in w.s.sheets
    ensures var w' := Step(w, c);
      ch in w'.s.sheets && HurtBy(w.s.sheets[ch], if Closes(w, c) then DamageTo(c.hits, ch) else 0, w'.s.sheets[ch])
  {
    if IsVerb(c) {
      VerbMem(w, c);
      HealthAfter(w.s.sheets, c.hits, ch);
    } else {
      StepLive(w, c);
      OtherMem(LiveOf(w), c, LiveOf(Step(w, c)));
    }
  }

  lemma OtherMem(v: Live, c: Command, v': Live)
    requires LiveStep(v, c, v') && !IsVerb(c) && !c.Restart?
    ensures v'.mem == v.mem
  {
    if c.MasterAction? {
      MasterSheets(v, c.touches, v');
    } else if c.CancelActions? {
      var recs, inserted :| CancelStepBy(v, v', recs, inserted);
      CancelledAllSheets(v, recs, inserted);
    }
  }

  lemma VerbTurns(v: Live, b: Verb, v': Live)
    requires Carries(v, b, v') && v.current.Some?
    ensures v'.turns == if b.ok then v.turns + {v.current.value} else v.turns
  {
  }

  /** The exact limit of the guarantee: a close that commits forgets every sheet it was to write, and a
      differing sheet really reached its row iff it has all three bars. */
  lemma CommittedIffComplete(w: World, c: Command, ch: Id)
    requires IsVerb(c) && Closes(w, c) && w.s.current.value !in w.disk.turns
    requires w.s.current.value in Step(w, c).disk.turns
    requires ch in w.unwritten + ToSet(Damaged(w.s.sheets, c.hits)) && ch in w.disk.sheets && ch in w.s.sheets
    ensures var w' := Step(w, c);
      && ch !in w'.unwritten && ch in w'.s.sheets && ch in w'.disk.sheets
      && (w'.s.sheets[ch] != w.disk.sheets[ch] ==>
            (w'.disk.sheets[ch] == w'.s.sheets[ch] <==> w.s.sheets[ch].Complete()))
  {
    CloseWritesExactly(w, c);
    var b := VerbLive(w, c);
    VerbSheets(LiveOf(w), b, LiveOf(Step(w, c)));
  }
}
