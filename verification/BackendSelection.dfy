/** The choice of a backend for a client: the sticky one if it is still usable, otherwise a least-loaded one. */
module BackendSelection {
  import opened Numbers
  import opened Options

  datatype Record = Record(id: string, host: string, port: nat, ready: bool, active: nat, tags: seq<string>)

  datatype Policy = Policy(draining: bool, replacement: string)

  const NO_POLICY := Policy(false, "")

  type Index = map<string, Policy>

  // ---------------------------------------------------------------------------
  // World policies
  // ---------------------------------------------------------------------------

  const WORLD_PREFIX := "world:"

  predicate IsWorldTag(tag: string) {
    WORLD_PREFIX < tag
  }

  /** The world a backend belongs to: its first world tag that names one. */
  function WorldOf(tags: seq<string>): Option<string> {
    if tags == [] then None
    else if IsWorldTag(tags[0]) then Some(tags[0][|WORLD_PREFIX|..])
    else WorldOf(tags[1..])
  }

  /** That tag i is the first one which names a world. */
  predicate FirstWorldTag(tags: seq<string>, i: nat, world: string) {
    && i < |tags| && world != "" && tags[i] == "world:" + world
    && forall k | 0 <= k < i :: !("world:" < tags[k])
  }

  lemma {:induction false} WorldOfIs(tags: seq<string>)
    ensures WorldOf(tags).None? <==> forall k | 0 <= k < |tags| :: !("world:" < tags[k])
    ensures WorldOf(tags).Some? ==> exists i: nat :: FirstWorldTag(tags, i, WorldOf(tags).value)
  {
    if tags != [] && IsWorldTag(tags[0]) {
      assert tags[0] == "world:" + WorldOf(tags).value;
      assert FirstWorldTag(tags, 0, WorldOf(tags).value);
    } else if tags != [] {
      WorldOfIs(tags[1..]);
      if WorldOf(tags).Some? {
        var i: nat :| FirstWorldTag(tags[1..], i, WorldOf(tags).value);
        assert tags[1..][i] == tags[i + 1];
        assert FirstWorldTag(tags, i + 1, WorldOf(tags).value);
      }
    }
  }

  function PolicyKey(prefix: string, world: string): string {
    prefix + "world-policy:" + world
  }

  /** Where policies come from: single gets, and the parser of a stored policy. */
  datatype Source = Source(get: string -> Option<string>, parse: string -> Option<Policy>)

  function Parsed(source: Source, payload: Option<string>): Policy {
    if payload.None? || payload.value == "" then NO_POLICY
    else match source.parse(payload.value) { case None => NO_POLICY case Some(p) => p }
  }

  function Worlds(items: seq<Record>): set<string> {
    set i | 0 <= i < |items| && WorldOf(items[i].tags).Some? :: WorldOf(items[i].tags).value
  }

  /** The index: for each world some backend belongs to, its stored policy. */
  function PolicyIndex(source: Source, prefix: string, items: seq<Record>): Index {
    map w | w in Worlds(items) :: Parsed(source, source.get(PolicyKey(prefix, w)))
  }

  /** The worlds of the records, each once, in order of appearance. */
  method CollectWorlds(items: seq<Record>) returns (worlds: seq<string>, out: Index)
    ensures (forall i, j | 0 <= i < j < |worlds| :: worlds[i] != worlds[j])
    ensures (set i | 0 <= i < |worlds| :: worlds[i]) == Worlds(items)
    ensures out.Keys == Worlds(items) && forall w | w in out :: out[w] == NO_POLICY
  {
    worlds, out := [], map[];
    for i := 0 to |items|
      invariant forall a, b | 0 <= a < b < |worlds| :: worlds[a] != worlds[b]
      invariant out.Keys == Worlds(items[..i]) && (forall w | w in out :: out[w] == NO_POLICY)
      invariant forall w :: w in worlds <==> w in out
    {
      WorldsSnoc(items[..i], items[i]);
      assert items[..i] + [items[i]] == items[..i + 1];
      var world := WorldOf(items[i].tags);
      if world.None? { continue; }
      if world.value in out { continue; }
      worlds := worlds + [world.value];
      out := out[world.value := NO_POLICY];
    }
    assert items[..|items|] == items;
  }

  lemma WorldsSnoc(items: seq<Record>, r: Record)
    ensures Worlds(items + [r]) == Worlds(items) + match WorldOf(r.tags) { case None => {} case Some(w) => {w} }
  {
    var all := items + [r];
    forall w | w in Worlds(items) ensures w in Worlds(all) {
      var i :| 0 <= i < |items| && WorldOf(items[i].tags) == Some(w);
      assert all[i] == items[i];
    }
    assert all[|items|] == r;
  }

  /** mget: the answer of the batched read, absent when it failed. */
  method LoadWorldPolicyIndex(hasRedis: bool, source: Source, prefix: string, items: seq<Record>,
                              mget: seq<string> -> Option<seq<Option<string>>>)
    returns (out: Index)
    ensures !hasRedis || prefix == "" ==> out == map[]
    ensures hasRedis && prefix != "" && Faithful(source, mget) ==> out == PolicyIndex(source, prefix, items)
  {
    out := map[];
    if !hasRedis || prefix == "" { return; }
    var worlds;
    worlds, out := CollectWorlds(items);
    if worlds == [] { return; }
    var keys := seq(|worlds|, i requires 0 <= i < |worlds| => PolicyKey(prefix, worlds[i]));
    var batch := mget(keys);
    var payloads;
    if batch.None? || |batch.value| != |keys| {
      payloads := GetEach(source, keys);
    } else {
      payloads := batch.value;
    }
    out := FillIndex(source, worlds, payloads, out);
    if Faithful(source, mget) {
      forall i | 0 <= i < |worlds| ensures payloads[i] == source.get(PolicyKey(prefix, worlds[i])) {
        assert keys[i] == PolicyKey(prefix, worlds[i]);
      }
      assert out == PolicyIndex(source, prefix, items);
    }
  }

  /** A batched read that answers with one payload per key answers what single gets would. */
  ghost predicate Faithful(source: Source, mget: seq<string> -> Option<seq<Option<string>>>) {
    forall keys :: mget(keys).Some? && |mget(keys).value| == |keys| ==>
      forall i | 0 <= i < |keys| :: mget(keys).value[i] == source.get(keys[i])
  }

  method GetEach(source: Source, keys: seq<string>) returns (payloads: seq<Option<string>>)
    ensures |payloads| == |keys| && forall i | 0 <= i < |keys| :: payloads[i] == source.get(keys[i])
  {
    payloads := [];
    for i := 0 to |keys|
      invariant |payloads| == i && forall j | 0 <= j < i :: payloads[j] == source.get(keys[j])
    {
      payloads := payloads + [source.get(keys[i])];
    }
  }

  method FillIndex(source: Source, worlds: seq<string>, payloads: seq<Option<string>>, defaults: Index)
    returns (out: Index)
    requires |payloads| == |worlds| && (forall i, j | 0 <= i < j < |worlds| :: worlds[i] != worlds[j])
    requires (set i | 0 <= i < |worlds| :: worlds[i]) == defaults.Keys
    requires forall w | w in defaults :: defaults[w] == NO_POLICY
    ensures out.Keys == defaults.Keys && forall i | 0 <= i < |worlds| :: out[worlds[i]] == Parsed(source, payloads[i])
  {
    out := defaults;
    for i := 0 to |worlds|
      invariant out.Keys == defaults.Keys && (forall j | 0 <= j < i :: out[worlds[j]] == Parsed(source, payloads[j]))
      invariant forall j | i <= j < |worlds| :: worlds[j] in out && out[worlds[j]] == NO_POLICY
    {
      if payloads[i].None? || payloads[i].value == "" { continue; }
      var parsed := source.parse(payloads[i].value);
      if parsed.Some? {
        out := out[worlds[i] := parsed.value];
      }
    }
  }

  datatype Decision = Decision(allowed: bool, drainingFiltered: bool, replacementMatch: bool, world: Option<string>)

  function EvaluateWorldPolicy(r: Record, index: Index): (d: Decision)
    ensures d.drainingFiltered <==> Draining(r, index)
    ensures d.allowed <==> (Draining(r, index) ==> OwnsReplacement(r, index))
    ensures d.replacementMatch <==> OwnsReplacement(r, index)
    ensures d.world == WorldOf(r.tags)
  {
    var world := WorldOf(r.tags);
    if world.None? then Decision(true, false, false, None)
    else if world.value !in index || !index[world.value].draining then Decision(true, false, false, world)
    else
      var matches := index[world.value].replacement != "" && index[world.value].replacement == r.id;
      Decision(matches, true, matches, world)
  }

  predicate Draining(r: Record, index: Index) {
    WorldOf(r.tags).Some? && WorldOf(r.tags).value in index && index[WorldOf(r.tags).value].draining
  }

  predicate OwnsReplacement(r: Record, index: Index) {
    Draining(r, index) && r.id != "" && index[WorldOf(r.tags).value].replacement == r.id
  }

  predicate Allowed(r: Record, index: Index) {
    Draining(r, index) ==> OwnsReplacement(r, index)
  }

  // ---------------------------------------------------------------------------
  // Load
  // ---------------------------------------------------------------------------

  /** Sessions of this gateway per backend. */
  method CountLocalLoad(sessions: seq<string>) returns (load: map<string, nat>)
    ensures forall id | id != "" :: LocalLoad(load, id) == multiset(sessions)[id]
    ensures "" !in load
  {
    load := map[];
    for i := 0 to |sessions|
      invariant "" !in load && forall id | id != "" :: LocalLoad(load, id) == multiset(sessions[..i])[id]
    {
      assert sessions[..i + 1] == sessions[..i] + [sessions[i]];
      var id := sessions[i];
      if id != "" {
        load := load[id := LocalLoad(load, id) + 1];
      }
    }
    assert sessions[..|sessions|] == sessions;
  }

  function LocalLoad(load: map<string, nat>, id: string): nat {
    if id in load then load[id] else 0
  }

  /** What a choice depends on; the selector comes from a resume locator. */
  datatype Choice = Choice(index: Index, local: map<string, nat>, selector: Option<Record -> bool>)

  /** A 64-bit sum. */
  function Load(c: Choice, r: Record): nat {
    (r.active + LocalLoad(c.local, r.id)) % WORD
  }

  predicate Eligible(c: Choice, r: Record) {
    r.ready && r.id != "" && r.host != "" && r.port != 0 && Allowed(r, c.index)
  }

  predicate Matches(c: Choice, r: Record) {
    c.selector.Some? ==> c.selector.value(r)
  }

  predicate InPool(c: Choice, r: Record) {
    Eligible(c, r) && Matches(c, r)
  }

  /** No record of the pool has less load. */
  ghost predicate IsBest(c: Choice, all: seq<Record>, r: Record) {
    InPool(c, r) && forall k | 0 <= k < |all| && InPool(c, all[k]) :: Load(c, r) <= Load(c, all[k])
  }

  /** Those of items that are best among all, in order. */
  ghost function Bests(c: Choice, all: seq<Record>, items: seq<Record>): seq<Record> {
    if items == [] then [] else
      Bests(c, all, items[..|items| - 1]) + if IsBest(c, all, items[|items| - 1]) then [items[|items| - 1]] else []
  }

  lemma {:induction false} BestsIrrelevant(c: Choice, all: seq<Record>, r: Record, items: seq<Record>, least: nat)
    requires forall k | 0 <= k < |items| :: items[k] in all
    requires forall k | 0 <= k < |all| && InPool(c, all[k]) :: least <= Load(c, all[k])
    requires exists k | 0 <= k < |all| :: InPool(c, all[k]) && Load(c, all[k]) == least
    requires InPool(c, r) ==> least <= Load(c, r)
    ensures Bests(c, all + [r], items) == Bests(c, all, items)
  {
    hide InPool, Load;
    if items != [] {
      var n := |items| - 1;
      BestsIrrelevant(c, all, r, items[..n], least);
      BestStays(c, all, r, items[n], least);
    }
  }

  lemma BestStays(c: Choice, all: seq<Record>, r: Record, q: Record, least: nat)
    requires forall k | 0 <= k < |all| && InPool(c, all[k]) :: least <= Load(c, all[k])
    requires exists k | 0 <= k < |all| :: InPool(c, all[k]) && Load(c, all[k]) == least
    requires InPool(c, r) ==> least <= Load(c, r)
    ensures IsBest(c, all + [r], q) <==> IsBest(c, all, q)
  {
    hide InPool, Load;
    if IsBest(c, all, q) {
      assert Load(c, q) <= least;
    }
    if IsBest(c, all + [r], q) {
      assert forall k | 0 <= k < |all| :: (all + [r])[k] == all[k];
    }
  }

  lemma {:induction false} BestsBeaten(c: Choice, all: seq<Record>, r: Record, items: seq<Record>)
    requires forall k | 0 <= k < |items| :: items[k] in all
    requires InPool(c, r) && forall k | 0 <= k < |all| && InPool(c, all[k]) :: Load(c, r) < Load(c, all[k])
    ensures Bests(c, all + [r], items) == []
  {
    hide InPool, Load;
    if items != [] {
      BestsBeaten(c, all, r, items[..|items| - 1]);
      assert (all + [r])[|all|] == r;
      assert !IsBest(c, all + [r], items[|items| - 1]);
    }
  }

  lemma {:induction false} BestsOutside(c: Choice, all: seq<Record>, items: seq<Record>)
    requires forall k | 0 <= k < |items| :: !InPool(c, items[k])
    ensures Bests(c, all, items) == []
  {
    hide InPool, Load;
    if items != [] { BestsOutside(c, all, items[..|items| - 1]); }
  }

  /** The state of the scan over the records: the least load so far and the records that have it. */
  ghost predicate Scanned(c: Choice, all: seq<Record>, least: nat, best: seq<Record>) {
    && best == Bests(c, all, all)
    && (forall k | 0 <= k < |all| && InPool(c, all[k]) :: least <= Load(c, all[k]))
    && (if best == [] then least == WORD - 1 && forall k | 0 <= k < |all| :: !InPool(c, all[k])
        else exists k | 0 <= k < |all| :: InPool(c, all[k]) && Load(c, all[k]) == least)
  }

  lemma ScanOne(c: Choice, all: seq<Record>, least: nat, best: seq<Record>, r: Record)
    requires Scanned(c, all, least, best)
    ensures !InPool(c, r) || Load(c, r) > least ==> Scanned(c, all + [r], least, best)
    ensures InPool(c, r) && Load(c, r) < least ==> Scanned(c, all + [r], Load(c, r), [r])
    ensures InPool(c, r) && Load(c, r) == least ==> Scanned(c, all + [r], least, best + [r])
  {
    LoadBounded(c, r);
    hide InPool, Load, Bests;
    var more := all + [r];
    BestsSnoc(c, more, all, r);
    assert more[|all|] == r && forall k | 0 <= k < |all| :: more[k] == all[k];
    forall k | 0 <= k < |all| ensures all[k] in all {}
    if best == [] {
      BestsOutside(c, more, all);
      if InPool(c, r) {
        assert IsBest(c, more, r);
      }
    } else if InPool(c, r) && Load(c, r) < least {
      BestsBeaten(c, all, r, all);
      assert IsBest(c, more, r);
    } else {
      BestsIrrelevant(c, all, r, all, least);
      BestStays(c, all, r, r, least);
    }
  }

  lemma LoadBounded(c: Choice, r: Record)
    ensures Load(c, r) <= WORD - 1
  {
  }

  lemma BestsSnoc(c: Choice, all: seq<Record>, items: seq<Record>, r: Record)
    ensures Bests(c, all, items + [r]) == Bests(c, all, items) + if IsBest(c, all, r) then [r] else []
  {
    assert (items + [r])[..|items|] == items;
  }

  /** All least-loaded records of the pool, in order. */
  method BuildCandidates(c: Choice, items: seq<Record>) returns (best: seq<Record>)
    ensures best == Bests(c, items, items)
    ensures best == [] <==> forall k | 0 <= k < |items| :: !InPool(c, items[k])
  {
    hide Bests, Load, Draining, OwnsReplacement;
    best := [];
    var least: nat := WORD - 1;
    ScanNothing(c);
    for i := 0 to |items|
      invariant Scanned(c, items[..i], least, best)
    {
      var r := items[i];
      ScanOne(c, items[..i], least, best, r);
      assert items[..i] + [r] == items[..i + 1];
      if !r.ready || r.id == "" || r.host == "" || r.port == 0 { continue; }
      if c.selector.Some? && !c.selector.value(r) { continue; }
      if !EvaluateWorldPolicy(r, c.index).allowed { continue; }
      var load := Load(c, r);
      if load < least {
        least := load;
        best := [r];
      } else if load == least {
        best := best + [r];
      }
    }
    assert items[..|items|] == items;
  }

  lemma ScanNothing(c: Choice)
    ensures Scanned(c, [], WORD - 1, [])
  {
  }

  lemma {:induction false} BestsAreBest(c: Choice, all: seq<Record>, items: seq<Record>, r: Record)
    ensures r in Bests(c, all, items) <==> r in items && IsBest(c, all, r)
  {
    hide IsBest;
    if items != [] {
      BestsAreBest(c, all, items[..|items| - 1], r);
      assert items == items[..|items| - 1] + [items[|items| - 1]];
    }
  }

  /** Active sessions of the record plus this gateway's own ones on that backend, as a 64-bit sum. */
  function Sessions(sessions: seq<string>, r: Record): nat {
    (r.active + multiset(sessions)[r.id]) % WORD
  }

  /**
   With the loads counted from this gateway's sessions, the candidates are exactly the records of the pool for which the
   sum of active and own sessions is least.
   */
  lemma LeastLoadedExactly(c: Choice, sessions: seq<string>, items: seq<Record>, r: Record)
    requires forall id | id != "" :: LocalLoad(c.local, id) == multiset(sessions)[id]
    ensures r in Bests(c, items, items) <==>
            && r in items && InPool(c, r)
            && forall k | 0 <= k < |items| && InPool(c, items[k]) ::
                 Sessions(sessions, r) <= Sessions(sessions, items[k])
  {
    hide Bests, Allowed;
    BestsAreBest(c, items, items, r);
    forall q | InPool(c, q) ensures Load(c, q) == Sessions(sessions, q) {}
  }

  // ---------------------------------------------------------------------------
  // The choice
  // ---------------------------------------------------------------------------

  /** The sticky record: the first ready one with the bound id. */
  function StickyRecord(items: seq<Record>, id: string): Option<Record> {
    if items == [] then None
    else if items[0].id == id && items[0].ready then Some(items[0])
    else StickyRecord(items[1..], id)
  }

  predicate StickyHit(c: Choice, items: seq<Record>, sticky: Option<string>) {
    sticky.Some? && StickyRecord(items, sticky.value).Some? && Allowed(StickyRecord(items, sticky.value).value, c.index)
  }

  /** The selector is set aside when it matches no eligible record. */
  ghost function Pool(c: Choice, items: seq<Record>): Choice {
    if exists k | 0 <= k < |items| :: InPool(c, items[k]) then c else c.(selector := None)
  }

  datatype Selected = Selected(record: Record, sticky: bool)

  method FindSticky(items: seq<Record>, id: string) returns (r: Option<Record>)
    ensures r == StickyRecord(items, id)
    ensures r.Some? ==> r.value in items && r.value.ready && r.value.id == id
    ensures r.None? <==> forall k | 0 <= k < |items| :: !(items[k].id == id && items[k].ready)
  {
    r := None;
    var i := 0;
    assert items[0..] == items;
    while i < |items|
      invariant 0 <= i <= |items| && StickyRecord(items, id) == StickyRecord(items[i..], id) && r.None?
      invariant forall k | 0 <= k < i :: !(items[k].id == id && items[k].ready)
    {
      assert items[i..][1..] == items[i + 1..];
      if items[i].id == id && items[i].ready { return Some(items[i]); }
      i := i + 1;
    }
  }

  /**
   sticky: what the session directory answered, absent when it was not asked. pick: the client's hash or the
   round-robin counter. release: the sticky binding is to be released.
   */
  method SelectBestServer(c: Choice, items: seq<Record>, sticky: Option<string>, pick: nat)
    returns (choice: Option<Selected>, release: bool)
    ensures StickyHit(c, items, sticky) ==>
              choice == Some(Selected(StickyRecord(items, sticky.value).value, true)) && !release
    ensures !StickyHit(c, items, sticky) && items != [] ==> release == sticky.Some?
    ensures !StickyHit(c, items, sticky) ==> (choice.None? <==> forall k | 0 <= k < |items| :: !Eligible(c, items[k]))
    ensures !StickyHit(c, items, sticky) && choice.Some? ==>
              !choice.value.sticky && NonStickyOk(c, items, choice.value.record)
    ensures !StickyHit(c, items, sticky) && choice.Some? ==>
              var best := Bests(Pool(c, items), items, items);
              best != [] && choice.value.record == best[pick % |best|]
    ensures choice.Some? ==> choice.value.record in items
    ensures choice.Some? && Draining(choice.value.record, c.index) ==> OwnsReplacement(choice.value.record, c.index)
  {
    hide Bests, Load, Draining, OwnsReplacement, StickyRecord;
    choice, release := None, false;
    if items == [] {
      NoSticky();
      return;
    }
    if sticky.Some? {
      var bound := FindSticky(items, sticky.value);
      if bound.Some? && EvaluateWorldPolicy(bound.value, c.index).allowed {
        return Some(Selected(bound.value, true)), false;
      }
      release := true;
    }
    var wide := c.(selector := None);
    SelectorAside(c);
    var best := BuildCandidates(c, items);
    if best == [] && c.selector.Some? {
      best := BuildCandidates(wide, items);
      if best == [] {
        assert forall k | 0 <= k < |items| :: InPool(wide, items[k]) == Eligible(c, items[k]);
        return;
      }
      var r := best[pick % |best|];
      BestsAreBest(wide, items, items, r);
      assert NonStickyOk(c, items, r);
      choice := Some(Selected(r, false));
    } else {
      if best == [] {
        assert forall k | 0 <= k < |items| :: InPool(c, items[k]) == Eligible(c, items[k]);
        return;
      }
      var r := best[pick % |best|];
      BestsAreBest(c, items, items, r);
      assert NonStickyOk(c, items, r);
      choice := Some(Selected(r, false));
    }
  }

  lemma SelectorAside(c: Choice)
    ensures forall r :: Load(c.(selector := None), r) == Load(c, r)
  {
  }

  lemma NoSticky()
    ensures forall id :: StickyRecord([], id).None?
  {
  }

  /**
   A least-loaded eligible record: among those the selector matches, or among all eligible ones when it matches none.
   */
  ghost predicate NonStickyOk(c: Choice, items: seq<Record>, r: Record) {
    && r in items && Eligible(c, r)
    && if exists k | 0 <= k < |items| :: InPool(c, items[k])
       then Matches(c, r) && forall k | 0 <= k < |items| && InPool(c, items[k]) :: Load(c, r) <= Load(c, items[k])
       else forall k | 0 <= k < |items| && Eligible(c, items[k]) :: Load(c, r) <= Load(c, items[k])
  }
}
