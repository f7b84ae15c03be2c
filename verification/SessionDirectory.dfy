/**
 Sticky routing: many gateways, each with a cache, over one Redis that maps a client to its backend. Calls of many
 threads interleave at the granularity of single Redis operations and locked cache sections.
 */
module SessionDirectory {
  import opened Options

  type Client = string
  type Backend = string
  type Time = int

  /**
   initial: what Redis holds at the start; delay: the longest time between a Redis answer and the cache write after it.
   */
  datatype Config = Config(ttl: int, delay: int, initial: map<Client, Backend>)

  predicate ConfigOk(c: Config) {
    c.ttl > 0 && c.delay >= 0
  }

  /** seen: when Redis last vouched for the entry. It is history only, and absent in entries of the final fallback. */
  datatype Entry = Entry(backend: Backend, expires: Time, seen: Option<Time>)

  type Cache = map<Client, Entry>

  datatype Thread = Thread(gateway: nat, index: nat)

  /** Where a thread is within a call; want is the backend asked for by ensure, absent in find. */
  datatype Op =
    | Idle
    | Asking(client: Client, want: Option<Backend>)
    | Keeping(client: Client, want: Option<Backend>, value: Backend, at: Time, renew: bool)
    | Renewing(client: Client, want: Option<Backend>, value: Backend)
    | Claiming(client: Client, want: Option<Backend>)
    | Rereading(client: Client, want: Option<Backend>)
    | Falling(client: Client, want: Option<Backend>)
    | Deleting(client: Client, backend: Backend)

  /** History: what the cache gave, and what calls returned. */
  datatype Event =
    | Hit(client: Client, value: Backend, at: Time, vouched: bool)
    | Answer(client: Client, want: Option<Backend>, result: Option<Backend>)

  datatype World = World(
    now: Time, redis: map<Client, Backend>, caches: map<nat, Cache>, ops: map<Thread, Op>, log: seq<Event>)

  function Init(c: Config): World {
    World(0, c.initial, map[], map[], [])
  }

  function CacheOf(w: World, g: nat): Cache {
    if g in w.caches then w.caches[g] else map[]
  }

  function OpOf(w: World, t: Thread): Op {
    if t in w.ops then w.ops[t] else Idle
  }

  function Go(w: World, t: Thread, op: Op): World {
    w.(ops := w.ops[t := op])
  }

  function Return(w: World, t: Thread, client: Client, want: Option<Backend>, result: Option<Backend>): World {
    Go(w, t, Idle).(log := w.log + [Answer(client, want, result)])
  }

  function Store(w: World, g: nat, client: Client, e: Entry): World {
    w.(caches := w.caches[g := CacheOf(w, g)[client := e]])
  }

  function Erase(w: World, g: nat, client: Client): World {
    w.(caches := w.caches[g := CacheOf(w, g) - {client}])
  }

  predicate IsHit(w: World, g: nat, client: Client) {
    client in CacheOf(w, g) && CacheOf(w, g)[client].expires > w.now
  }

  /** The answer of the find half of a call: ensure renews its claim when it finds what it wants. */
  function Found(w: World, t: Thread, client: Client, want: Option<Backend>, value: Backend): World {
    if want == Some(value) then Go(w, t, Renewing(client, want, value)) else Return(w, t, client, want, Some(value))
  }

  /** Start of find (want absent) or ensure: the locked look into the cache. */
  function StartCall(w: World, t: Thread, client: Client, want: Option<Backend>): World {
    if client == "" || want == Some("") then Return(w, t, client, want, None)
    else if IsHit(w, t.gateway, client) then
      var e := CacheOf(w, t.gateway)[client];
      Found(w.(log := w.log + [Hit(client, e.backend, w.now, e.seen.Some?)]), t, client, want, e.backend)
    else Go(Erase(w, t.gateway, client), t, Asking(client, want))
  }

  function StartRelease(w: World, t: Thread, client: Client, backend: Backend): World {
    if client == "" || backend == "" then w else
      var cache := CacheOf(w, t.gateway);
      var w' := if client in cache && cache[client].backend == backend then Erase(w, t.gateway, client) else w;
      Go(w', t, Deleting(client, backend))
  }

  /** What a get answers: nothing on failure. */
  function Get(w: World, client: Client, fails: bool): Option<Backend> {
    if !fails && client in w.redis && w.redis[client] != "" then Some(w.redis[client]) else None
  }

  /** The pending Redis operation of a thread; a failed one changes nothing and answers no. */
  function RedisStep(w: World, t: Thread, fails: bool): Option<World> {
    match OpOf(w, t)
    case Asking(client, want) =>
      (match Get(w, client, fails)
       case Some(v) => Some(Go(w, t, Keeping(client, want, v, w.now, want == Some(v))))
       case None =>
         if want.None? then Some(Return(w, t, client, want, None)) else Some(Go(w, t, Claiming(client, want))))
    case Renewing(client, want, value) => Some(Return(w, t, client, want, Some(value)))
    case Claiming(client, want) =>
      if want.Some? && !fails && client !in w.redis
      then Some(Go(w.(redis := w.redis[client := want.value]), t, Keeping(client, want, want.value, w.now, false)))
      else Some(Go(w, t, Rereading(client, want)))
    case Rereading(client, want) =>
      (match Get(w, client, fails)
       case Some(v) => Some(Go(w, t, Keeping(client, want, v, w.now, false)))
       case None => Some(Go(w, t, Falling(client, want))))
    case Deleting(client, backend) =>
      var w' := Go(w, t, Idle);
      Some(if !fails && client in w.redis && w.redis[client] == backend then w'.(redis := w.redis - {client}) else w')
    case _ => None
  }

  /** The locked cache write after a Redis answer. */
  function CacheStep(c: Config, w: World, t: Thread): Option<World> {
    match OpOf(w, t)
    case Keeping(client, want, value, at, renew) =>
      if w.now - at > c.delay then None else
        var w' := Store(w, t.gateway, client, Entry(value, w.now + c.ttl, Some(at)));
        Some(if renew then Go(w', t, Renewing(client, want, value)) else Return(w', t, client, want, Some(value)))
    case Falling(client, want) =>
      if want.None? then None else
        Some(Return(Store(w, t.gateway, client, Entry(want.value, w.now + c.ttl, None)), t, client, want, want))
    case _ => None
  }

  datatype Action =
    | Tick(elapsed: nat)
    | Call(thread: Thread, client: Client, want: Option<Backend>)
    | Release(thread: Thread, client: Client, backend: Backend)
    | Redis(thread: Thread, fails: bool)
    | Write(thread: Thread)
    | Expire(client: Client)

  function Step(c: Config, w: World, a: Action): Option<World> {
    match a
    case Tick(d) => Some(w.(now := w.now + d))
    case Call(t, client, want) => if OpOf(w, t).Idle? then Some(StartCall(w, t, client, want)) else None
    case Release(t, client, backend) => if OpOf(w, t).Idle? then Some(StartRelease(w, t, client, backend)) else None
    case Redis(t, fails) => RedisStep(w, t, fails)
    case Write(t) => CacheStep(c, w, t)
    case Expire(client) => Some(w.(redis := w.redis - {client}))
  }

  function Run(c: Config, actions: seq<Action>): Option<World> {
    if actions == [] then Some(Init(c)) else
      var before := Run(c, actions[..|actions| - 1]);
      if before.None? then None else Step(c, before.value, actions[|actions| - 1])
  }

  // ---------------------------------------------------------------------------
  // Agreement
  // ---------------------------------------------------------------------------

  /** A step during which no key goes away and Redis does not fail. */
  predicate Calm(a: Action) {
    !a.Expire? && !a.Release? && (a.Redis? ==> !a.fails)
  }

  predicate Bound(w: World, client: Client, value: Backend) {
    client in w.redis && w.redis[client] == value
  }

  /** A thread carries only the bound value, and never gets to the fallback. */
  predicate OpAgrees(w: World, op: Op) {
    match op
    case Keeping(client, _, value, _, _) => Bound(w, client, value)
    case Renewing(client, _, value) => Bound(w, client, value)
    case Claiming(_, want) => want.Some? && want.value != ""
    case Asking(_, want) => want != Some("")
    case Rereading(client, _) => client in w.redis
    case Falling(_, _) => false
    case Deleting(_, _) => false
    case Idle => true
  }

  predicate EventAgrees(w: World, ev: Event) {
    match ev
    case Hit(client, value, _, _) => Bound(w, client, value)
    case Answer(client, want, result) =>
      && (result.Some? ==> Bound(w, client, result.value))
      && (client != "" && want.Some? && want.value != "" ==> result.Some?)
  }

  ghost predicate Agreed(w: World) {
    && (forall c | c in w.redis :: w.redis[c] != "")
    && (forall g, c | g in w.caches && c in w.caches[g] :: Bound(w, c, w.caches[g][c].backend))
    && (forall t | t in w.ops :: OpAgrees(w, w.ops[t]))
    && (forall i | 0 <= i < |w.log| :: EventAgrees(w, w.log[i]))
  }

  /** Bindings are only added. */
  ghost predicate Grows(w: World, v: World) {
    forall c | c in w.redis :: Bound(v, c, w.redis[c])
  }

  lemma GrowsKeeps(w: World, v: World)
    requires Grows(w, v)
    ensures forall op | OpAgrees(w, op) :: OpAgrees(v, op)
    ensures forall ev | EventAgrees(w, ev) :: EventAgrees(v, ev)
  {
  }

  lemma GoAgrees(w: World, t: Thread, op: Op)
    requires Agreed(w) && OpAgrees(w, op)
    ensures Agreed(Go(w, t, op))
  {
    var v := Go(w, t, op);
    assert Grows(w, v);
    GrowsKeeps(w, v);
    hide OpAgrees, EventAgrees;
  }

  lemma LogAgrees(w: World, ev: Event)
    requires Agreed(w) && EventAgrees(w, ev)
    ensures Agreed(w.(log := w.log + [ev]))
  {
    var v := w.(log := w.log + [ev]);
    assert Grows(w, v);
    GrowsKeeps(w, v);
    hide OpAgrees, EventAgrees;
  }

  lemma StoreAgrees(w: World, g: nat, client: Client, e: Entry)
    requires Agreed(w) && Bound(w, client, e.backend)
    ensures Agreed(Store(w, g, client, e))
  {
    var v := Store(w, g, client, e);
    assert Grows(w, v);
    GrowsKeeps(w, v);
    hide OpAgrees, EventAgrees;
  }

  lemma EraseAgrees(w: World, g: nat, client: Client)
    requires Agreed(w)
    ensures Agreed(Erase(w, g, client))
  {
    var v := Erase(w, g, client);
    assert Grows(w, v);
    GrowsKeeps(w, v);
    hide OpAgrees, EventAgrees;
  }

  lemma ClaimAgrees(w: World, client: Client, value: Backend)
    requires Agreed(w) && client !in w.redis && value != ""
    ensures Agreed(w.(redis := w.redis[client := value]))
  {
    var v := w.(redis := w.redis[client := value]);
    assert Grows(w, v);
    GrowsKeeps(w, v);
    hide OpAgrees, EventAgrees;
  }

  lemma ReturnAgrees(w: World, t: Thread, client: Client, want: Option<Backend>, result: Option<Backend>)
    requires Agreed(w) && EventAgrees(w, Answer(client, want, result))
    ensures Agreed(Return(w, t, client, want, result))
  {
    hide Agreed;
    GoAgrees(w, t, Idle);
    LogAgrees(Go(w, t, Idle), Answer(client, want, result));
  }

  lemma CallAgrees(w: World, t: Thread, client: Client, want: Option<Backend>)
    requires Agreed(w)
    ensures Agreed(StartCall(w, t, client, want))
  {
    if client == "" || want == Some("") {
      hide Agreed;
      ReturnAgrees(w, t, client, want, None);
    } else if IsHit(w, t.gateway, client) {
      var e := CacheOf(w, t.gateway)[client];
      assert Bound(w, client, e.backend);
      hide Agreed;
      LogAgrees(w, Hit(client, e.backend, w.now, e.seen.Some?));
      var w' := w.(log := w.log + [Hit(client, e.backend, w.now, e.seen.Some?)]);
      if want == Some(e.backend) {
        GoAgrees(w', t, Renewing(client, want, e.backend));
      } else {
        ReturnAgrees(w', t, client, want, Some(e.backend));
      }
    } else {
      hide Agreed;
      EraseAgrees(w, t.gateway, client);
      GoAgrees(Erase(w, t.gateway, client), t, Asking(client, want));
    }
  }

  lemma GetAgrees(w: World, client: Client)
    requires Agreed(w)
    ensures Get(w, client, false).Some? <==> client in w.redis
    ensures client in w.redis ==> Bound(w, client, Get(w, client, false).value)
  {
  }

  lemma OpIsAgreed(w: World, t: Thread)
    requires Agreed(w)
    ensures OpAgrees(w, OpOf(w, t))
  {
  }

  lemma RedisAgrees(w: World, t: Thread)
    requires Agreed(w) && RedisStep(w, t, false).Some?
    ensures Agreed(RedisStep(w, t, false).value)
  {
    hide Agreed, Get;
    OpIsAgreed(w, t);
    match OpOf(w, t)
    case Asking(client, want) =>
      GetAgrees(w, client);
      match Get(w, client, false) {
        case Some(v) => GoAgrees(w, t, Keeping(client, want, v, w.now, want == Some(v)));
        case None =>
          if want.None? { ReturnAgrees(w, t, client, want, None); } else { GoAgrees(w, t, Claiming(client, want)); }
      }
    case Renewing(client, want, value) => ReturnAgrees(w, t, client, want, Some(value));
    case Claiming(client, want) =>
      if client !in w.redis {
        ClaimAgrees(w, client, want.value);
        GoAgrees(w.(redis := w.redis[client := want.value]), t, Keeping(client, want, want.value, w.now, false));
      } else {
        GoAgrees(w, t, Rereading(client, want));
      }
    case Rereading(client, want) =>
      GetAgrees(w, client);
      GoAgrees(w, t, Keeping(client, want, Get(w, client, false).value, w.now, false));
    case _ =>
  }

  lemma WriteAgrees(c: Config, w: World, t: Thread)
    requires Agreed(w) && CacheStep(c, w, t).Some?
    ensures Agreed(CacheStep(c, w, t).value)
  {
    hide Agreed;
    OpIsAgreed(w, t);
    match OpOf(w, t)
    case Keeping(client, want, value, at, renew) =>
      var e := Entry(value, w.now + c.ttl, Some(at));
      StoreAgrees(w, t.gateway, client, e);
      var w' := Store(w, t.gateway, client, e);
      if renew {
        GoAgrees(w', t, Renewing(client, want, value));
      } else {
        ReturnAgrees(w', t, client, want, Some(value));
      }
    case _ =>
  }

  lemma TickAgrees(w: World, now: Time)
    requires Agreed(w)
    ensures Agreed(w.(now := now))
  {
    var v := w.(now := now);
    assert Grows(w, v);
    GrowsKeeps(w, v);
    hide OpAgrees, EventAgrees;
  }

  lemma {:induction false} CalmAgrees(c: Config, actions: seq<Action>)
    requires (forall i | 0 <= i < |actions| :: Calm(actions[i])) && (forall k | k in c.initial :: c.initial[k] != "")
    requires Run(c, actions).Some?
    ensures Agreed(Run(c, actions).value)
  {
    hide StartCall, RedisStep, CacheStep;
    if actions != [] {
      var n := |actions| - 1;
      CalmAgrees(c, actions[..n]);
      hide Agreed;
      var w := Run(c, actions[..n]).value;
      assert Calm(actions[n]);
      match actions[n]
      case Tick(d) => TickAgrees(w, w.now + d);
      case Call(t, client, want) => CallAgrees(w, t, client, want);
      case Redis(t, fails) => RedisAgrees(w, t);
      case Write(t) => WriteAgrees(c, w, t);
      case _ =>
    }
  }

  /**
   While keys neither expire nor are released and Redis answers, however the calls of any number of gateways
   interleave: all answers for one client are the same backend, ensure always answers, every cache agrees with Redis,
   and the final fallback is never reached.
   */
  lemma Agreement(c: Config, actions: seq<Action>)
    requires (forall i | 0 <= i < |actions| :: Calm(actions[i])) && (forall k | k in c.initial :: c.initial[k] != "")
    requires Run(c, actions).Some?
    ensures var w := Run(c, actions).value;
            && (forall i, j | 0 <= i < |w.log| && 0 <= j < |w.log| && w.log[i].Answer? && w.log[j].Answer?
                  && w.log[i].client == w.log[j].client && w.log[i].result.Some? && w.log[j].result.Some? ::
                  w.log[i].result == w.log[j].result)
            && (forall i | 0 <= i < |w.log| && w.log[i].Answer? && w.log[i].client != "" && w.log[i].want.Some?
                  && w.log[i].want.value != "" :: w.log[i].result.Some?)
            && (forall g, k | g in w.caches && k in w.caches[g] :: Bound(w, k, w.caches[g][k].backend))
            && (forall t | t in w.ops :: !w.ops[t].Falling?)
  {
    hide Run;
    CalmAgrees(c, actions);
    var w := Run(c, actions).value;
    forall i, j | 0 <= i < |w.log| && 0 <= j < |w.log| && w.log[i].Answer? && w.log[j].Answer?
                  && w.log[i].client == w.log[j].client && w.log[i].result.Some? && w.log[j].result.Some?
      ensures w.log[i].result == w.log[j].result
    {
      assert EventAgrees(w, w.log[i]) && EventAgrees(w, w.log[j]);
    }
  }

  // ---------------------------------------------------------------------------
  // Bounded staleness
  // ---------------------------------------------------------------------------

  /** At time u of this run Redis had value bound to client. */
  ghost predicate WasBound(c: Config, actions: seq<Action>, client: Client, value: Backend, u: Time) {
    exists n | 0 <= n <= |actions| ::
      && Run(c, actions[..n]).Some? && Run(c, actions[..n]).value.now == u
      && Bound(Run(c, actions[..n]).value, client, value)
  }

  ghost predicate OpSeen(c: Config, actions: seq<Action>, w: World, op: Op) {
    op.Keeping? ==> op.at <= w.now && WasBound(c, actions, op.client, op.value, op.at)
  }

  /** A vouched entry was bound when Redis was asked, at most the delay before the cache was written. */
  ghost predicate EntrySeen(c: Config, actions: seq<Action>, w: World, client: Client, e: Entry) {
    && e.expires <= w.now + c.ttl
    && (e.seen.Some? ==>
          && e.expires - c.ttl - c.delay <= e.seen.value <= w.now
          && WasBound(c, actions, client, e.backend, e.seen.value))
  }

  ghost predicate EventSeen(c: Config, actions: seq<Action>, ev: Event) {
    ev.Hit? && ev.vouched ==>
      exists u :: ev.at - c.ttl - c.delay < u <= ev.at && WasBound(c, actions, ev.client, ev.value, u)
  }

  ghost predicate Seen(c: Config, actions: seq<Action>, w: World) {
    && (forall t | t in w.ops :: OpSeen(c, actions, w, w.ops[t]))
    && (forall g, k | g in w.caches && k in w.caches[g] :: EntrySeen(c, actions, w, k, w.caches[g][k]))
    && (forall i | 0 <= i < |w.log| :: EventSeen(c, actions, w.log[i]))
  }

  lemma WasBoundLater(c: Config, actions: seq<Action>, a: Action, client: Client, value: Backend, u: Time)
    requires WasBound(c, actions, client, value, u)
    ensures WasBound(c, actions + [a], client, value, u)
  {
    var n :| 0 <= n <= |actions| && Run(c, actions[..n]).Some? && Run(c, actions[..n]).value.now == u
             && Bound(Run(c, actions[..n]).value, client, value);
    assert (actions + [a])[..n] == actions[..n];
  }

  /** What was seen stays seen as the run goes on and time passes. */
  lemma SeenLater(c: Config, actions: seq<Action>, a: Action, w: World, now: Time)
    requires Seen(c, actions, w) && w.now <= now
    ensures Seen(c, actions + [a], w.(now := now))
  {
    hide WasBound;
    forall client, value, u | WasBound(c, actions, client, value, u)
      ensures WasBound(c, actions + [a], client, value, u)
    {
      WasBoundLater(c, actions, a, client, value, u);
    }
    var v := w.(now := now);
    forall t | t in w.ops ensures OpSeen(c, actions + [a], v, w.ops[t]) { assert OpSeen(c, actions, w, w.ops[t]); }
    forall g, k | g in w.caches && k in w.caches[g] ensures EntrySeen(c, actions + [a], v, k, w.caches[g][k]) {
      assert EntrySeen(c, actions, w, k, w.caches[g][k]);
    }
    forall i | 0 <= i < |w.log| ensures EventSeen(c, actions + [a], w.log[i]) {
      assert EventSeen(c, actions, w.log[i]);
    }
  }

  lemma GoSeen(c: Config, actions: seq<Action>, w: World, t: Thread, op: Op)
    requires Seen(c, actions, w) && OpSeen(c, actions, w, op)
    ensures Seen(c, actions, Go(w, t, op))
  {
    hide WasBound;
  }

  lemma ReturnSeen(c: Config, actions: seq<Action>, w: World, t: Thread, client: Client, want: Option<Backend>,
                   result: Option<Backend>)
    requires Seen(c, actions, w)
    ensures Seen(c, actions, Return(w, t, client, want, result))
  {
    hide WasBound;
  }

  lemma StoreSeen(c: Config, actions: seq<Action>, w: World, g: nat, client: Client, e: Entry)
    requires Seen(c, actions, w) && EntrySeen(c, actions, w, client, e)
    ensures Seen(c, actions, Store(w, g, client, e))
  {
    hide EventSeen, EntrySeen, OpSeen;
    var v := Store(w, g, client, e);
    SameNow(c, actions, w, v);
    forall h, k | h in v.caches && k in v.caches[h] ensures EntrySeen(c, actions, v, k, v.caches[h][k]) {
      assert || (v.caches[h][k] == e && k == client)
             || (h in w.caches && k in w.caches[h] && w.caches[h][k] == v.caches[h][k]);
    }
  }

  lemma EraseSeen(c: Config, actions: seq<Action>, w: World, g: nat, client: Client)
    requires Seen(c, actions, w)
    ensures Seen(c, actions, Erase(w, g, client))
  {
    hide EventSeen, EntrySeen, OpSeen;
    var v := Erase(w, g, client);
    SameNow(c, actions, w, v);
    forall h, k | h in v.caches && k in v.caches[h] ensures EntrySeen(c, actions, v, k, v.caches[h][k]) {
      assert h in w.caches && k in w.caches[h] && w.caches[h][k] == v.caches[h][k];
    }
  }

  lemma SameNow(c: Config, actions: seq<Action>, w: World, v: World)
    requires w.now == v.now
    ensures forall op | OpSeen(c, actions, w, op) :: OpSeen(c, actions, v, op)
    ensures forall k, e | EntrySeen(c, actions, w, k, e) :: EntrySeen(c, actions, v, k, e)
  {
    hide WasBound;
  }

  lemma HitSeen(c: Config, actions: seq<Action>, w: World, g: nat, client: Client)
    requires Seen(c, actions, w) && IsHit(w, g, client)
    ensures var e := CacheOf(w, g)[client];
            Seen(c, actions, w.(log := w.log + [Hit(client, e.backend, w.now, e.seen.Some?)]))
  {
    hide WasBound;
    var e := CacheOf(w, g)[client];
    assert EntrySeen(c, actions, w, client, e);
    var ev := Hit(client, e.backend, w.now, e.seen.Some?);
    if e.seen.Some? {
      assert w.now - c.ttl - c.delay < e.seen.value <= w.now;
    }
    assert EventSeen(c, actions, ev);
    hide EventSeen, EntrySeen, OpSeen;
    SameNow(c, actions, w, w.(log := w.log + [ev]));
  }

  lemma CallSeen(c: Config, actions: seq<Action>, w: World, t: Thread, client: Client, want: Option<Backend>)
    requires Seen(c, actions, w)
    ensures Seen(c, actions, StartCall(w, t, client, want))
  {
    hide Seen;
    if client == "" || want == Some("") {
      ReturnSeen(c, actions, w, t, client, want, None);
    } else if IsHit(w, t.gateway, client) {
      HitSeen(c, actions, w, t.gateway, client);
      var e := CacheOf(w, t.gateway)[client];
      var w' := w.(log := w.log + [Hit(client, e.backend, w.now, e.seen.Some?)]);
      if want == Some(e.backend) {
        GoSeen(c, actions, w', t, Renewing(client, want, e.backend));
      } else {
        ReturnSeen(c, actions, w', t, client, want, Some(e.backend));
      }
    } else {
      EraseSeen(c, actions, w, t.gateway, client);
      GoSeen(c, actions, Erase(w, t.gateway, client), t, Asking(client, want));
    }
  }

  lemma ReleaseSeen(c: Config, actions: seq<Action>, w: World, t: Thread, client: Client, backend: Backend)
    requires Seen(c, actions, w)
    ensures Seen(c, actions, StartRelease(w, t, client, backend))
  {
    hide Seen;
    if client != "" && backend != "" {
      var cache := CacheOf(w, t.gateway);
      if client in cache && cache[client].backend == backend {
        EraseSeen(c, actions, w, t.gateway, client);
        GoSeen(c, actions, Erase(w, t.gateway, client), t, Deleting(client, backend));
      } else {
        GoSeen(c, actions, w, t, Deleting(client, backend));
      }
    }
  }

  lemma RedisChanges(c: Config, actions: seq<Action>, w: World, redis: map<Client, Backend>)
    requires Seen(c, actions, w)
    ensures Seen(c, actions, w.(redis := redis))
  {
    hide EventSeen, EntrySeen, OpSeen;
    SameNow(c, actions, w, w.(redis := redis));
  }

  /** The run up to now, and the run with its last step, as instants of the longer run. */
  lemma BoundNow(c: Config, actions: seq<Action>, a: Action, client: Client, value: Backend)
    requires Run(c, actions).Some?
    ensures Bound(Run(c, actions).value, client, value)
            ==> WasBound(c, actions + [a], client, value, Run(c, actions).value.now)
    ensures Run(c, actions + [a]).Some? && Bound(Run(c, actions + [a]).value, client, value)
            ==> WasBound(c, actions + [a], client, value, Run(c, actions + [a]).value.now)
  {
    var all := actions + [a];
    assert all[..|actions|] == actions && all[..|all|] == all;
    hide Run;
  }

  lemma RedisSeen(c: Config, actions: seq<Action>, w: World, t: Thread, fails: bool)
    requires Run(c, actions) == Some(w) && RedisStep(w, t, fails).Some?
    requires Seen(c, actions + [Redis(t, fails)], w) && Run(c, actions + [Redis(t, fails)]) == RedisStep(w, t, fails)
    ensures Seen(c, actions + [Redis(t, fails)], RedisStep(w, t, fails).value)
  {
    hide Seen, WasBound, Run;
    var a := Redis(t, fails);
    var all := actions + [a];
    match OpOf(w, t)
    case Asking(client, want) =>
      match Get(w, client, fails) {
        case Some(v) =>
          BoundNow(c, actions, a, client, v);
          GoSeen(c, all, w, t, Keeping(client, want, v, w.now, want == Some(v)));
        case None =>
          if want.None? {
            ReturnSeen(c, all, w, t, client, want, None);
          } else {
            GoSeen(c, all, w, t, Claiming(client, want));
          }
      }
    case Renewing(client, want, value) => ReturnSeen(c, all, w, t, client, want, Some(value));
    case Claiming(client, want) =>
      if want.Some? && !fails && client !in w.redis {
        BoundNow(c, actions, a, client, want.value);
        RedisChanges(c, all, w, w.redis[client := want.value]);
        GoSeen(c, all, w.(redis := w.redis[client := want.value]), t, Keeping(client, want, want.value, w.now, false));
      } else {
        GoSeen(c, all, w, t, Rereading(client, want));
      }
    case Rereading(client, want) =>
      match Get(w, client, fails) {
        case Some(v) =>
          BoundNow(c, actions, a, client, v);
          GoSeen(c, all, w, t, Keeping(client, want, v, w.now, false));
        case None => GoSeen(c, all, w, t, Falling(client, want));
      }
    case Deleting(client, backend) =>
      GoSeen(c, all, w, t, Idle);
      RedisChanges(c, all, Go(w, t, Idle), w.redis - {client});
    case _ =>
  }

  lemma OpIsSeen(c: Config, actions: seq<Action>, w: World, t: Thread)
    requires Seen(c, actions, w)
    ensures OpSeen(c, actions, w, OpOf(w, t))
  {
    hide EntrySeen, EventSeen, WasBound;
  }

  lemma WriteSeen(c: Config, actions: seq<Action>, w: World, t: Thread)
    requires ConfigOk(c) && Seen(c, actions, w) && CacheStep(c, w, t).Some?
    ensures Seen(c, actions, CacheStep(c, w, t).value)
  {
    hide Seen, WasBound;
    OpIsSeen(c, actions, w, t);
    match OpOf(w, t)
    case Keeping(client, want, value, at, renew) =>
      var e := Entry(value, w.now + c.ttl, Some(at));
      StoreSeen(c, actions, w, t.gateway, client, e);
      var w' := Store(w, t.gateway, client, e);
      if renew {
        GoSeen(c, actions, w', t, Renewing(client, want, value));
      } else {
        ReturnSeen(c, actions, w', t, client, want, Some(value));
      }
    case Falling(client, want) =>
      var e := Entry(want.value, w.now + c.ttl, None);
      StoreSeen(c, actions, w, t.gateway, client, e);
      ReturnSeen(c, actions, Store(w, t.gateway, client, e), t, client, want, want);
    case _ =>
  }

  lemma {:induction false} RunSeen(c: Config, actions: seq<Action>)
    requires ConfigOk(c) && Run(c, actions).Some?
    ensures Seen(c, actions, Run(c, actions).value)
  {
    hide StartCall, StartRelease, RedisStep, CacheStep, OpSeen, EntrySeen, EventSeen;
    if actions != [] {
      var n := |actions| - 1;
      var front, a := actions[..n], actions[n];
      RunSeen(c, front);
      hide Seen;
      assert front + [a] == actions;
      var w := Run(c, front).value;
      SeenLater(c, front, a, w, if a.Tick? then w.now + a.elapsed else w.now);
      assert a.Tick? || w.(now := w.now) == w;
      match a
      case Tick(d) =>
      case Call(t, client, want) => CallSeen(c, actions, w, t, client, want);
      case Release(t, client, backend) => ReleaseSeen(c, actions, w, t, client, backend);
      case Redis(t, fails) => RedisSeen(c, front, w, t, fails);
      case Write(t) => WriteSeen(c, actions, w, t);
      case Expire(client) => RedisChanges(c, actions, w, w.redis - {client});
    }
  }

  /**
   Releases, expiry and Redis failures allowed: a cache hit at time t gives a value that Redis had bound to that client
   at some instant later than t - ttl - delay and no later than t, unless the entry came from the final fallback.
   */
  lemma BoundedStaleness(c: Config, actions: seq<Action>, i: nat)
    requires ConfigOk(c) && Run(c, actions).Some? && i < |Run(c, actions).value.log|
    requires Run(c, actions).value.log[i].Hit? && Run(c, actions).value.log[i].vouched
    ensures var hit := Run(c, actions).value.log[i];
            exists u :: hit.at - c.ttl - c.delay < u <= hit.at && WasBound(c, actions, hit.client, hit.value, u)
  {
    hide Run, WasBound, OpSeen, EntrySeen;
    RunSeen(c, actions);
    assert EventSeen(c, actions, Run(c, actions).value.log[i]);
  }

  // ---------------------------------------------------------------------------
  // Release
  // ---------------------------------------------------------------------------

  lemma StepForward(c: Config, w: World, a: Action, v: World)
    requires Step(c, w, a) == Some(v)
    ensures w.now <= v.now
  {
  }

  lemma {:induction false} TimeForward(c: Config, actions: seq<Action>, n: nat)
    requires Run(c, actions).Some? && n <= |actions|
    ensures Run(c, actions[..n]).Some? && Run(c, actions[..n]).value.now <= Run(c, actions).value.now
    decreases |actions|
  {
    hide Step;
    if n == |actions| {
      assert actions[..n] == actions;
    } else {
      var front := actions[..|actions| - 1];
      TimeForward(c, front, n);
      assert front[..n] == actions[..n];
      StepForward(c, Run(c, front).value, actions[|actions| - 1], Run(c, actions).value);
    }
  }

  /** Step n of the run is the delete of a release, and it was applied. */
  ghost predicate ReleasesAt(c: Config, actions: seq<Action>, n: nat, client: Client, backend: Backend) {
    && n < |actions| && Run(c, actions[..n]).Some? && actions[n].Redis? && !actions[n].fails
    && OpOf(Run(c, actions[..n]).value, actions[n].thread) == Deleting(client, backend)
  }

  /** After a step of the run Redis binds the client to the backend. */
  ghost predicate BoundAfter(c: Config, actions: seq<Action>, m: nat, client: Client, backend: Backend)
    requires m < |actions|
  {
    Run(c, actions[..m + 1]).Some? && Bound(Run(c, actions[..m + 1]).value, client, backend)
  }

  lemma ReleasedIsUnbound(c: Config, actions: seq<Action>, n: nat, client: Client, backend: Backend)
    requires ReleasesAt(c, actions, n, client, backend)
    ensures !BoundAfter(c, actions, n, client, backend)
  {
    assert actions[..n + 1][..n] == actions[..n];
  }

  /**
   A release spreads to every gateway in bounded time: when the delete was applied at time t and no later step binds the
   client to that backend again, no vouched cache hit, on any gateway, gives it later than t + ttl + delay.
   */
  lemma ReleaseFades(c: Config, actions: seq<Action>, n: nat, client: Client, backend: Backend, i: nat)
    requires ConfigOk(c) && Run(c, actions).Some? && i < |Run(c, actions).value.log|
    requires ReleasesAt(c, actions, n, client, backend)
    requires forall m | n < m < |actions| :: !BoundAfter(c, actions, m, client, backend)
    requires var hit := Run(c, actions).value.log[i];
             hit.Hit? && hit.vouched && hit.client == client && hit.value == backend
    ensures Run(c, actions).value.log[i].at <= Run(c, actions[..n]).value.now + c.ttl + c.delay
  {
    hide Run, OpOf;
    var hit := Run(c, actions).value.log[i];
    ReleasedIsUnbound(c, actions, n, client, backend);
    BoundedStaleness(c, actions, i);
    var u :| hit.at - c.ttl - c.delay < u <= hit.at && WasBound(c, actions, client, backend, u);
    var m :| 0 <= m <= |actions| && Run(c, actions[..m]).Some? && Run(c, actions[..m]).value.now == u
             && Bound(Run(c, actions[..m]).value, client, backend);
    assert n < m ==> !BoundAfter(c, actions, m - 1, client, backend);
    TimeForward(c, actions[..n], m);
    assert actions[..n][..m] == actions[..m];
  }

  // ---------------------------------------------------------------------------
  // What ends and begins a binding
  // ---------------------------------------------------------------------------

  lemma StepAt(c: Config, actions: seq<Action>, n: nat)
    requires Run(c, actions).Some? && n < |actions|
    ensures Run(c, actions[..n]).Some? && Run(c, actions[..n + 1]).Some?
    ensures Step(c, Run(c, actions[..n]).value, actions[n]) == Run(c, actions[..n + 1])
  {
    hide Step;
    TimeForward(c, actions, n + 1);
    assert actions[..n + 1][..n] == actions[..n];
  }

  function Keys(w: World, client: Client): Option<Backend> {
    if client in w.redis then Some(w.redis[client]) else None
  }

  /** The step takes a binding of the client to the backend away: its key expires, or a release of it is applied. */
  predicate Unbinds(w: World, a: Action, client: Client, backend: Backend) {
    a == Expire(client) || (a.Redis? && !a.fails && OpOf(w, a.thread) == Deleting(client, backend))
  }

  /** The step claims an unbound client for a backend. */
  predicate Claims(w: World, a: Action, client: Client, backend: Backend) {
    a.Redis? && !a.fails && OpOf(w, a.thread) == Claiming(client, Some(backend))
  }

  /** What a step does to one key of Redis, exactly. */
  lemma KeyChangesExactly(c: Config, w: World, a: Action, v: World, client: Client, backend: Backend)
    requires Step(c, w, a) == Some(v)
    ensures Keys(w, client) == Some(backend) ==>
              Keys(v, client) == if Unbinds(w, a, client, backend) then None else Some(backend)
    ensures Keys(w, client) == None ==>
              (Keys(v, client) == Some(backend) <==> Claims(w, a, client, backend))
  {
  }

  /** In every run a binding ends at a step if and only if its key expires there or a release of just it is applied. */
  lemma BindingEndsExactly(c: Config, actions: seq<Action>, n: nat, client: Client, backend: Backend)
    requires Run(c, actions).Some? && n < |actions|
    ensures Run(c, actions[..n]).Some? && Run(c, actions[..n + 1]).Some?
    ensures var w, v := Run(c, actions[..n]).value, Run(c, actions[..n + 1]).value;
            Bound(w, client, backend) ==>
              (Keys(v, client) != Some(backend) <==> Unbinds(w, actions[n], client, backend))
  {
    hide Run, Step, Unbinds;
    StepAt(c, actions, n);
    KeyChangesExactly(c, Run(c, actions[..n]).value, actions[n], Run(c, actions[..n + 1]).value, client, backend);
  }

  predicate AsksRelease(a: Action, client: Client, backend: Backend) {
    a.Release? && a.client == client && a.backend == backend
  }

  /** A thread deletes only what it was asked to release. */
  lemma DeleteComesFrom(c: Config, w: World, a: Action, v: World, t: Thread, client: Client, backend: Backend)
    requires Step(c, w, a) == Some(v) && OpOf(v, t) == Deleting(client, backend)
    ensures OpOf(w, t) == Deleting(client, backend) || a == Release(t, client, backend)
  {
    hide RedisStep, CacheStep, StartCall;
    if a.Redis? {
      RedisOps(w, a.thread, a.fails);
    } else if a.Write? {
      WriteOps(c, w, a.thread);
    } else if a.Call? {
      CallOps(w, a.thread, a.client, a.want);
    }
  }

  /** The other steps move their own thread only, and not to a delete. */
  ghost predicate OwnOp(w: World, v: World, t: Thread) {
    !OpOf(v, t).Deleting? && forall u | u != t :: OpOf(v, u) == OpOf(w, u)
  }

  lemma RedisOps(w: World, t: Thread, fails: bool)
    requires RedisStep(w, t, fails).Some?
    ensures OwnOp(w, RedisStep(w, t, fails).value, t)
  {
    hide Get;
  }

  lemma WriteOps(c: Config, w: World, t: Thread)
    requires CacheStep(c, w, t).Some?
    ensures OwnOp(w, CacheStep(c, w, t).value, t)
  {
  }

  lemma CallOps(w: World, t: Thread, client: Client, want: Option<Backend>)
    ensures OwnOp(w, StartCall(w, t, client, want), t)
  {
  }

  lemma {:induction false} DeletesWereAsked(
    c: Config, actions: seq<Action>, t: Thread, client: Client, backend: Backend)
    requires Run(c, actions).Some? && OpOf(Run(c, actions).value, t) == Deleting(client, backend)
    ensures exists i | 0 <= i < |actions| :: actions[i] == Release(t, client, backend)
  {
    hide Step;
    var n := |actions| - 1;
    var front := actions[..n];
    DeleteComesFrom(c, Run(c, front).value, actions[n], Run(c, actions).value, t, client, backend);
    if actions[n] != Release(t, client, backend) {
      DeletesWereAsked(c, front, t, client, backend);
      var i :| 0 <= i < |front| && front[i] == Release(t, client, backend);
      assert actions[i] == front[i];
    }
  }

  /**
   A binding survives every release of other backends and of other clients: as long as its own key does not expire and
   nobody has asked to release just it, it stays.
   */
  lemma {:induction false} BindingSurvives(c: Config, actions: seq<Action>, n: nat, client: Client, backend: Backend)
    requires Run(c, actions).Some? && n <= |actions| && Run(c, actions[..n]).Some?
    requires Bound(Run(c, actions[..n]).value, client, backend)
    requires forall i | n <= i < |actions| :: actions[i] != Expire(client)
    requires forall i | 0 <= i < |actions| :: !AsksRelease(actions[i], client, backend)
    ensures Bound(Run(c, actions).value, client, backend)
  {
    if n == |actions| {
      assert actions[..n] == actions;
    } else {
      hide Step;
      var last := |actions| - 1;
      var front, a := actions[..last], actions[last];
      assert front[..n] == actions[..n];
      forall i | 0 <= i < last ensures front[i] == actions[i] {}
      BindingSurvives(c, front, n, client, backend);
      var w := Run(c, front).value;
      if Unbinds(w, a, client, backend) {
        DeletesWereAsked(c, front, a.thread, client, backend);
        assert false;
      }
      KeyChangesExactly(c, w, a, Run(c, actions).value, client, backend);
    }
  }

  // ---------------------------------------------------------------------------
  // What ends and begins a cache entry
  // ---------------------------------------------------------------------------

  /** The entry that a thread is about to write for the client, if it is. */
  function Writes(c: Config, w: World, t: Thread, client: Client): Option<Entry> {
    match OpOf(w, t)
    case Keeping(k, _, value, at, _) => if k == client then Some(Entry(value, w.now + c.ttl, Some(at))) else None
    case Falling(k, want) =>
      if k == client && want.Some? then Some(Entry(want.value, w.now + c.ttl, None)) else None
    case _ => None
  }

  function Lookup(w: World, g: nat, client: Client): Option<Entry> {
    if client in CacheOf(w, g) then Some(CacheOf(w, g)[client]) else None
  }

  /** The step takes the gateway's entry away: a release of just it, or a look that finds it expired. */
  predicate Evicts(w: World, a: Action, g: nat, client: Client, e: Entry) {
    || (a.Release? && a.thread.gateway == g && a.client == client != "" && a.backend == e.backend != "")
    || (a.Call? && a.thread.gateway == g && a.client == client != "" && a.want != Some("") && e.expires <= w.now)
  }

  /** What a step does to one cache entry of one gateway, exactly. */
  lemma EntryChangesExactly(c: Config, w: World, a: Action, v: World, g: nat, client: Client)
    requires Step(c, w, a) == Some(v)
    ensures var before := Lookup(w, g, client);
            Lookup(v, g, client) ==
            if a.Write? && a.thread.gateway == g && Writes(c, w, a.thread, client).Some? then
              Writes(c, w, a.thread, client)
            else if before.Some? && Evicts(w, a, g, client, before.value) then None
            else before
  {
    hide RedisStep, CacheStep, StartCall, StartRelease;
    if a.Redis? {
      RedisLeavesCaches(w, a.thread, a.fails);
    } else if a.Write? {
      WriteChanges(c, w, a.thread, g, client);
    } else if a.Call? {
      CallChanges(w, a.thread, a.client, a.want, g, client);
    } else if a.Release? {
      ReleaseChanges(w, a.thread, a.client, a.backend, g, client);
    }
  }

  lemma WriteChanges(c: Config, w: World, t: Thread, g: nat, client: Client)
    requires CacheStep(c, w, t).Some?
    ensures Lookup(CacheStep(c, w, t).value, g, client) ==
            if t.gateway == g && Writes(c, w, t, client).Some? then Writes(c, w, t, client) else Lookup(w, g, client)
  {
  }

  lemma CallChanges(w: World, t: Thread, asked: Client, want: Option<Backend>, g: nat, client: Client)
    ensures var before := Lookup(w, g, client);
            Lookup(StartCall(w, t, asked, want), g, client) ==
            if before.Some? && Evicts(w, Call(t, asked, want), g, client, before.value) then None else before
  {
  }

  lemma ReleaseChanges(w: World, t: Thread, asked: Client, backend: Backend, g: nat, client: Client)
    ensures var before := Lookup(w, g, client);
            Lookup(StartRelease(w, t, asked, backend), g, client) ==
            if before.Some? && Evicts(w, Release(t, asked, backend), g, client, before.value) then None else before
  {
  }

  lemma RedisLeavesCaches(w: World, t: Thread, fails: bool)
    requires RedisStep(w, t, fails).Some?
    ensures RedisStep(w, t, fails).value.caches == w.caches
  {
  }

  /** In the run nothing is written for the client on the gateway from step n on. */
  ghost predicate Unwritten(c: Config, actions: seq<Action>, n: nat, g: nat, client: Client) {
    forall i | n <= i < |actions| && actions[i].Write? && actions[i].thread.gateway == g ::
      Run(c, actions[..i]).Some? && Writes(c, Run(c, actions[..i]).value, actions[i].thread, client).None?
  }

  lemma UnwrittenFront(c: Config, actions: seq<Action>, n: nat, g: nat, client: Client)
    requires Unwritten(c, actions, n, g, client) && n < |actions|
    ensures Unwritten(c, actions[..|actions| - 1], n, g, client)
  {
    hide Run, Writes;
    var front := actions[..|actions| - 1];
    forall i | 0 <= i < |front| ensures front[i] == actions[i] && front[..i] == actions[..i] {}
  }

  /**
   Right after a release, and until something is written for the client there again, the releasing gateway's cache does
   not give that backend.
   */
  lemma {:induction false} ReleaseForgotten(c: Config, actions: seq<Action>, n: nat, client: Client, backend: Backend)
    requires Run(c, actions).Some? && n < |actions| && actions[n].Release? && client != "" && backend != ""
    requires actions[n] == Release(actions[n].thread, client, backend)
    requires Unwritten(c, actions, n, actions[n].thread.gateway, client)
    ensures var e := Lookup(Run(c, actions).value, actions[n].thread.gateway, client);
            e.Some? ==> e.value.backend != backend
  {
    hide Step;
    var last, g := |actions| - 1, actions[n].thread.gateway;
    var front := actions[..last];
    if n < last {
      UnwrittenFront(c, actions, n, g, client);
      assert front[n] == actions[n];
      ReleaseForgotten(c, front, n, client, backend);
    }
    EntryChangesExactly(c, Run(c, front).value, actions[last], Run(c, actions).value, g, client);
  }

  /** No release of the entry by a thread of the gateway from step n on. */
  predicate Unreleased(actions: seq<Action>, n: nat, g: nat, client: Client, backend: Backend) {
    forall i | n <= i < |actions| && actions[i].Release? && actions[i].thread.gateway == g ::
      actions[i].client != client || actions[i].backend != backend
  }

  lemma {:induction false} EntryStays(c: Config, actions: seq<Action>, n: nat, g: nat, client: Client, e: Entry)
    requires Run(c, actions).Some? && n <= |actions| && Run(c, actions[..n]).Some?
    requires Lookup(Run(c, actions[..n]).value, g, client) == Some(e) && Run(c, actions).value.now < e.expires
    requires Unwritten(c, actions, n, g, client) && Unreleased(actions, n, g, client, e.backend)
    ensures Lookup(Run(c, actions).value, g, client) == Some(e)
  {
    hide Step;
    if n == |actions| {
      assert actions[..n] == actions;
    } else {
      var last := |actions| - 1;
      var front := actions[..last];
      assert front[..n] == actions[..n];
      forall i | 0 <= i < last ensures front[i] == actions[i] {}
      UnwrittenFront(c, actions, n, g, client);
      StepForward(c, Run(c, front).value, actions[last], Run(c, actions).value);
      EntryStays(c, front, n, g, client, e);
      EntryChangesExactly(c, Run(c, front).value, actions[last], Run(c, actions).value, g, client);
    }
  }

  /** A look into the cache: an unexpired entry is what the call finds; otherwise it asks Redis. */
  lemma LookExactly(w: World, t: Thread, client: Client, want: Option<Backend>)
    requires client != "" && want != Some("")
    ensures var v, e := StartCall(w, t, client, want), Lookup(w, t.gateway, client);
            if e.Some? && w.now < e.value.expires then
              && |v.log| > |w.log| && v.log[|w.log|] == Hit(client, e.value.backend, w.now, e.value.seen.Some?)
              && (want != Some(e.value.backend) ==>
                    OpOf(v, t) == Idle && v.log[|w.log| + 1..] == [Answer(client, want, Some(e.value.backend))])
            else v.log == w.log && OpOf(v, t) == Asking(client, want)
  {
  }

  /**
   The cache serves: what was written for a client is found by every call on that gateway for the next ttl, unless it is
   overwritten or released there.
   */
  lemma CacheServes(
    c: Config, actions: seq<Action>, n: nat, client: Client, t: Thread, want: Option<Backend>, v: World)
    requires Run(c, actions).Some? && n < |actions| && actions[n].Write? && Run(c, actions[..n]).Some?
    requires client != "" && want != Some("") && t.gateway == actions[n].thread.gateway
    requires var e := Writes(c, Run(c, actions[..n]).value, actions[n].thread, client);
             && e.Some? && Run(c, actions).value.now < Run(c, actions[..n]).value.now + c.ttl
             && Unreleased(actions, n + 1, t.gateway, client, e.value.backend)
    requires Unwritten(c, actions, n + 1, t.gateway, client)
    requires Step(c, Run(c, actions).value, Call(t, client, want)) == Some(v)
    ensures var e := Writes(c, Run(c, actions[..n]).value, actions[n].thread, client).value;
            var w := Run(c, actions).value;
            |v.log| > |w.log| && v.log[|w.log|] == Hit(client, e.backend, w.now, e.seen.Some?)
  {
    hide Run, StartCall;
    StepAt(c, actions, n);
    var w0, w1 := Run(c, actions[..n]).value, Run(c, actions[..n + 1]).value;
    var e := Writes(c, w0, actions[n].thread, client).value;
    WrittenLives(c, w0, actions[n].thread, client);
    EntryChangesExactly(c, w0, actions[n], w1, t.gateway, client);
    EntryStays(c, actions, n + 1, t.gateway, client, e);
    LookExactly(Run(c, actions).value, t, client, want);
  }

  lemma WrittenLives(c: Config, w: World, t: Thread, client: Client)
    requires Writes(c, w, t, client).Some?
    ensures Writes(c, w, t, client).value.expires == w.now + c.ttl
  {
  }

  // ---------------------------------------------------------------------------
  // A call on its own
  // ---------------------------------------------------------------------------

  function Steps(c: Config, w: World, actions: seq<Action>): Option<World>
    decreases |actions|
  {
    if actions == [] then Some(w) else
      var v := Step(c, w, actions[0]);
      if v.None? then None else Steps(c, v.value, actions[1..])
  }

  /** What a call should answer when Redis does: the cached backend, else the bound one, else the one asked for. */
  function Outcome(w: World, g: nat, client: Client, want: Option<Backend>): Option<Backend> {
    var e := Lookup(w, g, client);
    if client == "" || want == Some("") then None
    else if e.Some? && w.now < e.value.expires then Some(e.value.backend)
    else if Keys(w, client).Some? && Keys(w, client) != Some("") then Keys(w, client)
    else want
  }

  predicate Own(a: Action, t: Thread) {
    (a.Call? || a.Redis? || a.Write?) && a.thread == t
  }

  /** Steps of the thread alone, none of which waits, take its call to this answer. */
  ghost predicate Returns(c: Config, w: World, t: Thread, actions: seq<Action>, v: World, answer: Event) {
    && Steps(c, w, actions) == Some(v) && OpOf(v, t) == Idle && v.now == w.now
    && |v.log| > |w.log| && v.log[|v.log| - 1] == answer
    && forall i | 0 <= i < |actions| :: Own(actions[i], t)
  }

  lemma ReturnsLater(
    c: Config, w: World, t: Thread, a: Action, u: World, rest: seq<Action>, v: World, answer: Event)
    requires Step(c, w, a) == Some(u) && Own(a, t) && u.now == w.now && |w.log| <= |u.log|
    requires Returns(c, u, t, rest, v, answer)
    ensures Returns(c, w, t, [a] + rest, v, answer)
  {
    hide Step, Own, OpOf;
    assert ([a] + rest)[1..] == rest;
  }

  lemma ReturnsNow(c: Config, w: World, t: Thread, a: Action, v: World, answer: Event)
    requires Step(c, w, a) == Some(v) && Own(a, t) && v.now == w.now && OpOf(v, t) == Idle
    requires v.log != [] && |w.log| < |v.log| && v.log[|v.log| - 1] == answer
    ensures Returns(c, w, t, [a], v, answer)
  {
    hide Step, Own, OpOf;
    assert [a][1..] == [] && Steps(c, v, []) == Some(v);
  }

  /** From a Redis answer to the return: the cache write, and the renewal of what was asked for. */
  lemma KeepAlone(c: Config, w: World, t: Thread, client: Client, want: Option<Backend>, value: Backend, renew: bool)
    returns (actions: seq<Action>, v: World)
    requires ConfigOk(c) && OpOf(w, t) == Keeping(client, want, value, w.now, renew)
    ensures Returns(c, w, t, actions, v, Answer(client, want, Some(value))) && v.redis == w.redis
    ensures Lookup(v, t.gateway, client) == Some(Entry(value, w.now + c.ttl, Some(w.now)))
  {
    hide Returns;
    var answer := Answer(client, want, Some(value));
    var u := CacheStep(c, w, t).value;
    if renew {
      v := RedisStep(u, t, false).value;
      ReturnsNow(c, u, t, Redis(t, false), v, answer);
      ReturnsLater(c, w, t, Write(t), u, [Redis(t, false)], v, answer);
      actions := [Write(t)] + [Redis(t, false)];
    } else {
      v := u;
      ReturnsNow(c, w, t, Write(t), v, answer);
      actions := [Write(t)];
    }
  }

  /** From the claim on, for a client without a usable binding. */
  lemma ClaimAlone(c: Config, w: World, t: Thread, client: Client, want: Option<Backend>)
    returns (actions: seq<Action>, v: World)
    requires ConfigOk(c) && OpOf(w, t) == Claiming(client, want) && want.Some? && Get(w, client, false).None?
    ensures Returns(c, w, t, actions, v, Answer(client, want, want))
    ensures v.redis == if client in w.redis then w.redis else w.redis[client := want.value]
    ensures Lookup(v, t.gateway, client).Some? && Lookup(v, t.gateway, client).value.backend == want.value
  {
    hide Returns;
    var rest;
    var u := RedisStep(w, t, false).value;
    if client !in w.redis {
      rest, v := KeepAlone(c, u, t, client, want, want.value, false);
    } else {
      var falling := RedisStep(u, t, false).value;
      v := CacheStep(c, falling, t).value;
      ReturnsNow(c, falling, t, Write(t), v, Answer(client, want, want));
      ReturnsLater(c, u, t, Redis(t, false), falling, [Write(t)], v, Answer(client, want, want));
      rest := [Redis(t, false)] + [Write(t)];
    }
    ReturnsLater(c, w, t, Redis(t, false), u, rest, v, Answer(client, want, want));
    actions := [Redis(t, false)] + rest;
  }

  /** From the first get on. */
  lemma AskAlone(c: Config, w: World, t: Thread, client: Client, want: Option<Backend>)
    returns (actions: seq<Action>, v: World)
    requires ConfigOk(c) && OpOf(w, t) == Asking(client, want)
    ensures var bound := Get(w, client, false);
            var result := if bound.Some? then bound else want;
            && Returns(c, w, t, actions, v, Answer(client, want, result))
            && v.redis == (if want.Some? && client !in w.redis then w.redis[client := want.value] else w.redis)
            && (result.Some? ==> Lookup(v, t.gateway, client).Some?
                                 && Lookup(v, t.gateway, client).value.backend == result.value)
  {
    hide Returns;
    var rest;
    var u := RedisStep(w, t, false).value;
    var bound := Get(w, client, false);
    if bound.Some? {
      rest, v := KeepAlone(c, u, t, client, want, bound.value, want == bound);
    } else if want.None? {
      ReturnsNow(c, w, t, Redis(t, false), u, Answer(client, want, None));
      return [Redis(t, false)], u;
    } else {
      rest, v := ClaimAlone(c, u, t, client, want);
    }
    ReturnsLater(c, w, t, Redis(t, false), u, rest, v, Answer(client, want, if bound.Some? then bound else want));
    actions := [Redis(t, false)] + rest;
  }

  /**
   Undisturbed, and with Redis answering, a find or an ensure returns the cached backend, else the bound one, else the
   one asked for, which it then binds; what it returns is in the cache afterwards, and no other key changes.
   */
  lemma CallAlone(c: Config, w: World, t: Thread, client: Client, want: Option<Backend>)
    returns (actions: seq<Action>, v: World)
    requires ConfigOk(c) && OpOf(w, t) == Idle
    ensures var result := Outcome(w, t.gateway, client, want);
            && Returns(c, w, t, actions, v, Answer(client, want, result))
            && (result.Some? ==> Lookup(v, t.gateway, client).Some?
                                 && Lookup(v, t.gateway, client).value.backend == result.value)
            && (v.redis == w.redis || (want.Some? && client !in w.redis && v.redis == w.redis[client := want.value]))
            && (client != "" && want.Some? && want != Some("") && !IsHit(w, t.gateway, client) ==> client in v.redis)
  {
    hide Returns;
    var result := Outcome(w, t.gateway, client, want);
    var u := StartCall(w, t, client, want);
    if client == "" || want == Some("") {
      ReturnsNow(c, w, t, Call(t, client, want), u, Answer(client, want, None));
      return [Call(t, client, want)], u;
    }
    if !IsHit(w, t.gateway, client) {
      var rest;
      rest, v := AskAlone(c, u, t, client, want);
      ReturnsLater(c, w, t, Call(t, client, want), u, rest, v, Answer(client, want, result));
      return [Call(t, client, want)] + rest, v;
    }
    if want == result {
      v := RedisStep(u, t, false).value;
      ReturnsNow(c, u, t, Redis(t, false), v, Answer(client, want, result));
      ReturnsLater(c, w, t, Call(t, client, want), u, [Redis(t, false)], v, Answer(client, want, result));
      return [Call(t, client, want)] + [Redis(t, false)], v;
    }
    ReturnsNow(c, w, t, Call(t, client, want), u, Answer(client, want, result));
    return [Call(t, client, want)], u;
  }

  // ---------------------------------------------------------------------------
  // The code, one thread's view of it
  // ---------------------------------------------------------------------------

  /**
   A gateway's directory as one of its threads sees it. cache and redis are shared with other threads and gateways,
   which may act whenever this thread is between two steps. Every call is proved to be a run of the machine above.
   */
  class SessionDirectory {
    const config: Config
    const self: Thread
    var now: Time
    var redis: map<Client, Backend>
    var cache: Cache
    ghost var world: World
    ghost var trace: seq<Action>

    constructor (config: Config, self: Thread)
      requires ConfigOk(config)
      ensures Valid() && this.config == config && this.self == self && At() == Idle
    {
      this.config, this.self := config, self;
      now, redis, cache := 0, config.initial, map[];
      world, trace := Init(config), [];
    }

    ghost predicate Valid()
      reads this
    {
      && ConfigOk(config) && Run(config, trace) == Some(world)
      && now == world.now && redis == world.redis && cache == CacheOf(world, self.gateway)
    }

    ghost function At(): Op
      reads this
    {
      OpOf(world, self)
    }

    /** The last thing that happened is that this thread's call returned. */
    ghost predicate Returned(client: Client, want: Option<Backend>, result: Option<Backend>)
      reads this
    {
      At() == Idle && |world.log| > 0 && world.log[|world.log| - 1] == Answer(client, want, result)
    }

    /** The run went on from before with this step. */
    ghost predicate Began(before: seq<Action>, a: Action)
      reads this
    {
      before + [a] <= trace
    }

    /** Record that the last change of the fields was this step. */
    ghost method Note(a: Action)
      requires ConfigOk(config) && Run(config, trace) == Some(world) && Step(config, world, a).Some?
      requires var w := Step(config, world, a).value;
               now == w.now && redis == w.redis && cache == CacheOf(w, self.gateway)
      modifies `world, `trace
      ensures Valid() && Some(world) == Step(config, old(world), a) && trace == old(trace) + [a]
    {
      hide Step;
      assert (trace + [a])[..|trace|] == trace;
      world := Step(config, world, a).value;
      trace := trace + [a];
    }

    /** Anything other threads, Redis and the clock may do; callers know no more of it than this contract. */
    method Others()
      requires Valid()
      modifies this
      ensures Valid() && At() == old(At()) && now >= old(now) && old(trace) <= trace
    {
    }

    /** The same within the time a cache write may lag behind a Redis answer. */
    method OthersBriefly()
      requires Valid()
      modifies this
      ensures Valid() && At() == old(At()) && old(now) <= now <= old(now) + config.delay && old(trace) <= trace
    {
    }

    method RedisGet(client: Client) returns (fails: bool, value: Option<Backend>)
      ensures Valid() ==> (if value.Some? && value.value != "" then value else None) == Get(world, client, fails)
    {
      fails := *;
      value := if !fails && client in redis then Some(redis[client]) else None;
    }

    /** Write what Redis just answered into the cache. */
    method Keep(client: Client, ghost want: Option<Backend>, value: Backend, ghost renew: bool)
      requires Valid() && At() == Keeping(client, want, value, now, renew)
      modifies this
      ensures Valid() && old(trace) <= trace
      ensures if renew then At() == Renewing(client, want, value) else Returned(client, want, Some(value))
    {
      hide Run, RedisStep, StartCall;
      var at := now;
      OthersBriefly();
      cache := cache[client := Entry(value, now + config.ttl, Some(at))];
      Note(Write(self));
    }

    /** The get after a miss; an empty value counts as none. */
    method Ask(client: Client, ghost want: Option<Backend>) returns (found: Option<Backend>)
      requires Valid() && At() == Asking(client, want)
      modifies `world, `trace
      ensures Valid() && old(trace) <= trace
      ensures found.Some? ==> At() == Keeping(client, want, found.value, now, want == found)
      ensures found.None? && want.None? ==> Returned(client, want, None)
      ensures found.None? && want.Some? ==> At() == Claiming(client, want)
    {
      hide Run, CacheStep, StartCall;
      var fails, value := RedisGet(client);
      Note(Redis(self, fails));
      found := if value.Some? && value.value != "" then value else None;
    }

    /** The lookup shared by find and ensure. */
    method Find(client: Client, ghost want: Option<Backend>) returns (found: Option<Backend>)
      requires Valid() && At() == Idle && client != "" && want != Some("")
      modifies this
      ensures Valid() && Began(old(trace), Call(self, client, want))
      ensures found.Some? && want == found ==> At() == Renewing(client, want, found.value)
      ensures found.Some? && want != found ==> Returned(client, want, found)
      ensures found.None? && want.None? ==> Returned(client, want, None)
      ensures found.None? && want.Some? ==> At() == Claiming(client, want)
    {
      hide Run, RedisStep, CacheStep;
      if client in cache && cache[client].expires > now {
        found := Some(cache[client].backend);
        Note(Call(self, client, want));
        return;
      }
      cache := cache - {client};
      Note(Call(self, client, want));
      Others();
      found := Ask(client, want);
      if found.None? { return; }
      Keep(client, want, found.value, want == found);
    }

    method FindBackend(client: Client) returns (result: Option<Backend>)
      requires Valid() && At() == Idle
      modifies this
      ensures Valid() && Began(old(trace), Call(self, client, None)) && Returned(client, None, result)
    {
      hide Run;
      if client == "" {
        Note(Call(self, client, None));
        return None;
      }
      result := Find(client, None);
    }

    method EnsureBackend(client: Client, desired: Backend) returns (result: Option<Backend>)
      requires Valid() && At() == Idle
      modifies this
      ensures Valid() && Began(old(trace), Call(self, client, Some(desired))) && Returned(client, Some(desired), result)
      ensures result.Some? <==> client != "" && desired != ""
    {
      hide Run;
      ghost var want := Some(desired);
      if client == "" || desired == "" {
        Note(Call(self, client, want));
        return None;
      }
      result := Find(client, want);
      if result.Some? {
        if result.value == desired {
          Others();
          Note(Redis(self, false));
        }
        return;
      }
      Others();
      var fails: bool := *;
      if !fails && client !in redis {
        redis := redis[client := desired];
        Note(Redis(self, fails));
        Keep(client, want, desired, false);
        return Some(desired);
      }
      Note(Redis(self, fails));
      result := Reread(client, desired);
    }

    /** The claim was refused: take what is there, or fall back to what was asked for. */
    method Reread(client: Client, desired: Backend) returns (result: Option<Backend>)
      requires Valid() && At() == Rereading(client, Some(desired))
      modifies this
      ensures Valid() && old(trace) <= trace && result.Some? && Returned(client, Some(desired), result)
    {
      hide Run, CacheStep, StartCall;
      Others();
      var fails, current := RedisGet(client);
      Note(Redis(self, fails));
      if current.Some? && current.value != "" {
        Keep(client, Some(desired), current.value, false);
        return current;
      }
      Others();
      FallBack(client, desired);
      result := Some(desired);
    }

    /** Nothing to be had from Redis: remember what was asked for. */
    method FallBack(client: Client, desired: Backend)
      requires Valid() && At() == Falling(client, Some(desired))
      modifies this
      ensures Valid() && old(trace) <= trace && Returned(client, Some(desired), Some(desired))
    {
      hide Run, RedisStep, StartCall;
      cache := cache[client := Entry(desired, now + config.ttl, None)];
      Note(Write(self));
    }

    /** before: what Redis holds when the delete comes. */
    method ReleaseBackend(client: Client, backend: Backend) returns (fails: bool, ghost before: map<Client, Backend>)
      requires Valid() && At() == Idle
      modifies this
      ensures Valid() && At() == Idle
      ensures client == "" || backend == "" ==> trace == old(trace) && cache == old(cache) && redis == old(redis)
      ensures client != "" && backend != "" ==>
                && Began(old(trace), Release(self, client, backend)) && trace[|trace| - 1] == Redis(self, fails)
                && redis == if !fails && client in before && before[client] == backend then before - {client}
                            else before
    {
      hide Run, CacheStep, StartCall;
      fails, before := false, redis;
      if client == "" || backend == "" { return; }
      if client in cache && cache[client].backend == backend {
        cache := cache - {client};
      }
      Note(Release(self, client, backend));
      Others();
      fails, before := *, redis;
      if !fails && client in redis && redis[client] == backend {
        redis := redis - {client};
      }
      Note(Redis(self, fails));
    }
  }
}
