/**
 What every step of the scheduler keeps, and what follows for whole runs: the lazy queues with their generation
 numbers behave like a plain map from task to due time.
 */
module SchedulerProofs {
  import opened Options
  import opened RepeatBackoff
  import opened SchedulerModel

  // ---------------------------------------------------------------------------
  // The invariant
  // ---------------------------------------------------------------------------

  function Hand(s: Sched): seq<Slot> {
    if s.running.Some? then [s.running.value] else []
  }

  /** Every queue entry in existence, wherever it is. */
  function Pool(s: Sched): multiset<Slot> {
    multiset(s.ready) + multiset(s.batch) + multiset(Hand(s)) + multiset(Slots(s.delayed))
  }

  /** Table and records agree. */
  ghost predicate TableOk(s: Sched) {
    && s.nextId >= 1 && s.tasks <= s.records.Keys
    && (forall id | id in s.records :: 0 < id < s.nextId && (id in s.tasks <==> !s.records[id].canceled))
  }

  /** No entry is from the future, and each task in the table has exactly one entry of its current generation. */
  ghost predicate PoolOk(s: Sched) {
    && (forall e | e in Pool(s) :: e.id in s.records && e.generation <= s.records[e.id].generation)
    && (forall id | id in s.tasks :: Pool(s)[Slot(id, s.records[id].generation)] == 1)
  }

  ghost predicate IsDue(s: Sched, e: Slot) {
    Live(s, e) ==> e.id in Plain(s.log) && Plain(s.log)[e.id] <= s.now
  }

  ghost predicate IsTimed(s: Sched, t: Timed) {
    Live(s, t.slot) ==> t.slot.id in Plain(s.log) && Plain(s.log)[t.slot.id] == t.due
  }

  ghost predicate AllDue(s: Sched, es: seq<Slot>) {
    forall i | 0 <= i < |es| :: IsDue(s, es[i])
  }

  ghost predicate AllTimed(s: Sched, ts: seq<Timed>) {
    forall i | 0 <= i < |ts| :: IsTimed(s, ts[i])
  }

  /** The current entries tell the due times of the plain view. */
  ghost predicate DueOk(s: Sched) {
    && Plain(s.log).Keys == s.tasks
    && AllDue(s, s.ready) && AllDue(s, s.batch) && AllDue(s, Hand(s)) && AllTimed(s, s.delayed)
  }

  function RunsOf(log: seq<Event>, id: TaskId): nat {
    if log == [] then 0 else
      RunsOf(log[..|log| - 1], id) + if log[|log| - 1].Ran? && log[|log| - 1].id == id then 1 else 0
  }

  ghost predicate OnceOk(s: Sched) {
    && (forall id | id !in s.records :: RunsOf(s.log, id) == 0)
    && (forall id | id in s.records && !s.records[id].repeating ::
          && RunsOf(s.log, id) <= 1
          && (id in s.tasks && Hand(s) != [] ==> RunsOf(s.log, id) == 0 || Hand(s)[0].id == id)
          && (id in s.tasks && Hand(s) == [] ==> RunsOf(s.log, id) == 0))
  }

  /** Ids in the log are the ids handed out. */
  ghost predicate IdsOk(s: Sched) {
    forall i | 0 <= i < |s.log| && s.log[i].Added? :: s.log[i].id in s.records
  }

  ghost predicate HistoryOk(s: Sched) {
    LogOk(s.log) && OnceOk(s) && IdsOk(s) && (s.running.Some? ==> s.running.value.id in s.records)
  }

  ghost predicate OpenInv(s: Sched) {
    !s.closed && HistoryOk(s) && TableOk(s) && PoolOk(s) && DueOk(s)
  }

  /** u is s as it would be had it not been shut down: what is left of a poll does the same in both. */
  predicate Twin(s: Sched, u: Sched) {
    u == s.(closed := false, tasks := u.tasks, ready := u.ready, delayed := u.delayed)
  }

  ghost predicate HasTwin(s: Sched) {
    exists u :: Twin(s, u) && OpenInv(u)
  }

  ghost predicate Inv(s: Sched) {
    && HistoryOk(s)
    && if s.closed then s.tasks == {} && s.ready == [] && HasTwin(s) else TableOk(s) && PoolOk(s) && DueOk(s)
  }

  // ---------------------------------------------------------------------------
  // One more event
  // ---------------------------------------------------------------------------

  lemma LogSnoc(log: seq<Event>, ev: Event)
    ensures Plain(log + [ev]) == ApplyEvent(Plain(log), ev)
    ensures forall id :: RunsOf(log + [ev], id) == RunsOf(log, id) + if ev.Ran? && ev.id == id then 1 else 0
    ensures LogOk(log) && Fits(log, ev) ==> LogOk(log + [ev])
  {
    var l := log + [ev];
    assert l[..|log|] == log;
    if LogOk(log) && Fits(log, ev) {
      forall n | 0 <= n < |l| ensures Fits(l[..n], l[n]) {
        if n < |log| { assert l[..n] == log[..n]; }
      }
    }
  }

  lemma SlotsSnoc(ts: seq<Timed>, t: Timed)
    ensures Slots(ts + [t]) == Slots(ts) + [t.slot]
  {
  }

  // ---------------------------------------------------------------------------
  // Queueing a task under a new generation
  // ---------------------------------------------------------------------------

  lemma EnqueuePool(s: Sched, e: Slot, delay: int)
    ensures Pool(Enqueue(s, e, delay)) == Pool(s) + multiset{e}
  {
    if delay > 0 { SlotsSnoc(s.delayed, Timed(s.now + delay, e)); }
  }

  /** t differs from s in that task id is live under a generation that no entry of s has. */
  ghost predicate Renews(s: Sched, t: Sched, id: TaskId) {
    && !s.closed && !t.closed && t.now == s.now
    && id in t.records && t.records == s.records[id := t.records[id]] && !t.records[id].canceled
    && 0 < id < t.nextId && s.nextId <= t.nextId && t.tasks == s.tasks + {id}
    && (if id in s.records then
      id in s.tasks && t.records[id].generation == s.records[id].generation + 1 else s.nextId <= id)
  }

  lemma RenewPool(s: Sched, t: Sched, id: TaskId)
    requires TableOk(s) && PoolOk(s) && Renews(s, t, id)
    requires Pool(t) == Pool(s) + multiset{Slot(id, t.records[id].generation)}
    ensures TableOk(t) && PoolOk(t)
  {
    hide Pool;
    var added := Slot(id, t.records[id].generation);
    assert added !in Pool(s);
    forall e | e in Pool(t) ensures e.id in t.records && e.generation <= t.records[e.id].generation {
      assert e == added || e in Pool(s);
    }
  }

  /** Old entries of a renewed task are stale; those of the others are as live as before. */
  lemma RenewLive(s: Sched, t: Sched, id: TaskId, e: Slot)
    requires PoolOk(s) && Renews(s, t, id) && e in Pool(s) && Live(t, e)
    ensures Live(s, e) && e.id != id
  {
    hide Pool;
  }

  /** t's plain view differs from s's at most in task id, whose old entries are stale in t. */
  ghost predicate Detaches(s: Sched, t: Sched, id: TaskId) {
    && s.now <= t.now
    && (forall k | k != id :: k in Plain(s.log) <==> k in Plain(t.log))
    && (forall k | k != id && k in Plain(s.log) :: Plain(t.log)[k] == Plain(s.log)[k])
    && (forall e | e in Pool(s) && Live(t, e) :: Live(s, e) && e.id != id)
  }

  lemma DetachedDue(s: Sched, t: Sched, id: TaskId, es: seq<Slot>)
    requires Detaches(s, t, id) && AllDue(s, es) && multiset(es) <= Pool(s)
    ensures AllDue(t, es)
  {
    hide Plain, Pool;
    forall i | 0 <= i < |es| ensures IsDue(t, es[i]) {
      assert IsDue(s, es[i]);
      assert es[i] in multiset(es);
    }
  }

  lemma DetachedTimed(s: Sched, t: Sched, id: TaskId)
    requires Detaches(s, t, id) && AllTimed(s, s.delayed)
    ensures AllTimed(t, s.delayed)
  {
    hide Plain;
    assert multiset(Slots(s.delayed)) <= Pool(s);
    forall i | 0 <= i < |s.delayed| ensures IsTimed(t, s.delayed[i]) {
      assert IsTimed(s, s.delayed[i]);
      assert Slots(s.delayed)[i] in multiset(Slots(s.delayed));
    }
  }

  lemma DetachedAll(s: Sched, t: Sched, id: TaskId)
    requires DueOk(s) && Detaches(s, t, id)
    ensures AllDue(t, s.ready) && AllDue(t, s.batch) && AllDue(t, Hand(s)) && AllTimed(t, s.delayed)
  {
    assert multiset(s.ready) <= Pool(s) && multiset(s.batch) <= Pool(s) && multiset(Hand(s)) <= Pool(s);
    hide Plain, Pool, AllDue, AllTimed, Detaches;
    DetachedDue(s, t, id, s.ready);
    DetachedDue(s, t, id, s.batch);
    DetachedDue(s, t, id, Hand(s));
    DetachedTimed(s, t, id);
  }

  lemma RenewDue(s: Sched, t: Sched, id: TaskId, due: Time)
    requires PoolOk(s) && DueOk(s) && Renews(s, t, id) && t.batch == s.batch && t.running == s.running
    requires Plain(t.log) == Plain(s.log)[id := due]
    requires var e := Slot(id, t.records[id].generation);
             || (t.ready == s.ready + [e] && t.delayed == s.delayed && due <= t.now)
             || (t.ready == s.ready && t.delayed == s.delayed + [Timed(due, e)])
    ensures DueOk(t)
  {
    hide Plain, Pool;
    forall e | e in Pool(s) && Live(t, e) ensures Live(s, e) && e.id != id { RenewLive(s, t, id, e); }
    DetachedAll(s, t, id);
  }

  /** An event that is not a run, on a table that only gains the added task. */
  lemma HistoryGains(s: Sched, t: Sched, ev: Event)
    requires HistoryOk(s) && Fits(s.log, ev) && !ev.Ran? && t.log == s.log + [ev] && t.running == s.running
    requires forall id | id in s.records :: id in t.records && t.records[id].repeating == s.records[id].repeating
    requires ev.Added? ==> ev.id in t.records
    requires forall id | id in t.tasks && id in s.records :: id in s.tasks
    ensures HistoryOk(t)
    ensures Plain(t.log) == ApplyEvent(Plain(s.log), ev)
  {
    hide Plain, RunsOf, LogOk, Fits;
    LogSnoc(s.log, ev);
    forall i | 0 <= i < |t.log| && t.log[i].Added? ensures t.log[i].id in t.records {
      if i < |s.log| { assert t.log[i] == s.log[i]; }
    }
  }

  lemma SamePool(s: Sched, t: Sched)
    requires t.ready == s.ready && t.batch == s.batch && t.running == s.running && t.delayed == s.delayed
    ensures Pool(t) == Pool(s)
  {
  }

  lemma AddPool(s: Sched, rec: Record, delay: int)
    ensures Pool(AddTask(s, rec, delay)) == Pool(s) + multiset{Slot(s.nextId, rec.generation)}
  {
    hide Pool;
    var t := AddTask(s, rec, delay);
    var base := s.(records := t.records, tasks := t.tasks, nextId := t.nextId, log := t.log);
    EnqueuePool(base, Slot(s.nextId, rec.generation), delay);
    SamePool(s, base);
  }

  lemma RequeuePool(s: Sched, id: TaskId, rec: Record, delay: int, requested: bool)
    requires id in s.records
    ensures Pool(Requeue(s, id, rec, delay, requested)) == Pool(s) + multiset{Slot(id, s.records[id].generation + 1)}
  {
    hide Pool;
    var t := Requeue(s, id, rec, delay, requested);
    var base := s.(records := t.records, log := t.log);
    EnqueuePool(base, Slot(id, s.records[id].generation + 1), delay);
    SamePool(s, base);
  }

  lemma RepeatPool(s: Sched, id: TaskId, rec: Record, draw: nat)
    requires id in s.records
    ensures Pool(Repeat(s, id, rec, draw)) == Pool(s) + multiset{Slot(id, s.records[id].generation + 1)}
  {
    hide NextDelay;
    var due := s.now + NextDelay(rec.policy, rec.interval, draw);
    SlotsSnoc(s.delayed, Timed(due, Slot(id, s.records[id].generation + 1)));
  }

  lemma AddKeeps(s: Sched, rec: Record, delay: int, t: Sched)
    requires Inv(s) && !s.closed && rec.generation == 0 && !rec.canceled && t == AddTask(s, rec, delay)
    ensures Inv(t)
  {
    hide Plain, RunsOf, LogOk, Pool, DueOk, OnceOk, PoolOk;
    AddPool(s, rec, delay);
    HistoryGains(s, t, Added(s.nextId, s.now + Positive(delay)));
    RenewPool(s, t, s.nextId);
    RenewDue(s, t, s.nextId, s.now + Positive(delay));
  }

  lemma RequeueKeeps(s: Sched, id: TaskId, rec: Record, delay: int, requested: bool, t: Sched)
    requires Inv(s) && !s.closed && id in s.tasks && id in s.records && !rec.canceled
    requires rec.repeating == s.records[id].repeating && t == Requeue(s, id, rec, delay, requested)
    ensures Inv(t)
  {
    hide Plain, RunsOf, LogOk, Pool, AllDue, AllTimed, OnceOk, PoolOk;
    RequeuePool(s, id, rec, delay, requested);
    HistoryGains(s, t, Moved(id, s.now + Positive(delay), requested));
    RenewPool(s, t, id);
    RenewDue(s, t, id, s.now + Positive(delay));
  }

  lemma RepeatKeeps(s: Sched, id: TaskId, rec: Record, draw: nat, t: Sched)
    requires Inv(s) && !s.closed && id in s.tasks && id in s.records && !rec.canceled
    requires rec.repeating == s.records[id].repeating && t == Repeat(s, id, rec, draw)
    ensures Inv(t)
  {
    hide Plain, RunsOf, LogOk, Pool, AllDue, AllTimed, OnceOk, PoolOk, NextDelay;
    var due := s.now + NextDelay(rec.policy, rec.interval, draw);
    RepeatPool(s, id, rec, draw);
    HistoryGains(s, t, Moved(id, due, false));
    RenewPool(s, t, id);
    RenewDue(s, t, id, due);
  }

  // ---------------------------------------------------------------------------
  // Taking tasks away
  // ---------------------------------------------------------------------------

  /** t has the entries of s, and some of the tasks of s with their records otherwise unchanged. */
  ghost predicate Thins(s: Sched, t: Sched, ids: set<TaskId>) {
    && !s.closed && !t.closed && t.now == s.now && t.nextId == s.nextId
    && t.ready == s.ready && t.batch == s.batch && t.running == s.running && t.delayed == s.delayed
    && t.tasks == s.tasks - ids && t.records.Keys == s.records.Keys && t.log == s.log + [Removed(ids)]
    && (forall id | id in s.records && id !in ids :: t.records[id] == s.records[id])
    && (forall id | id in s.records && id in ids ::
          t.records[id].canceled && t.records[id].repeating == s.records[id].repeating
          && t.records[id].generation >= s.records[id].generation)
  }

  lemma ThinKeeps(s: Sched, t: Sched, ids: set<TaskId>)
    requires Inv(s) && Thins(s, t, ids)
    ensures Inv(t)
  {
    hide Plain, RunsOf, LogOk, Pool, OnceOk, DueOk;
    SamePool(s, t);
    HistoryGains(s, t, Removed(ids));
    ThinDue(s, t, ids);
  }

  lemma ThinDue(s: Sched, t: Sched, ids: set<TaskId>)
    requires DueOk(s) && Thins(s, t, ids) && Plain(t.log) == Plain(s.log) - ids
    ensures DueOk(t)
  {
    hide Plain, RunsOf;
    forall e | Live(t, e) ensures Live(s, e) && e.id !in ids {}
    forall e: Slot | IsDue(s, e) ensures IsDue(t, e) {}
    forall e: Timed | IsTimed(s, e) ensures IsTimed(t, e) {}
  }

  // ---------------------------------------------------------------------------
  // Losing an entry that is not live
  // ---------------------------------------------------------------------------

  lemma LosePool(s: Sched, t: Sched, e: Slot)
    requires TableOk(s) && PoolOk(s) && t.records == s.records && t.tasks == s.tasks && t.nextId == s.nextId
    requires !Live(s, e) && Pool(s) == Pool(t) + multiset{e}
    ensures TableOk(t) && PoolOk(t)
  {
    hide Pool;
  }

  /** Where records and the plain view are the same, so are the dues, and time only helps. */
  lemma SameView(s: Sched, t: Sched)
    requires t.records == s.records && Plain(t.log) == Plain(s.log) && s.now <= t.now
    ensures forall es :: AllDue(s, es) ==> AllDue(t, es)
    ensures forall ts :: AllTimed(s, ts) ==> AllTimed(t, ts)
  {
    hide Plain;
    forall e: Slot | IsDue(s, e) ensures IsDue(t, e) {}
    forall x: Timed | IsTimed(s, x) ensures IsTimed(t, x) {}
  }

  lemma SameOnce(s: Sched, t: Sched)
    requires OnceOk(s) && t.records == s.records && t.tasks == s.tasks && t.running == s.running && t.log == s.log
    ensures OnceOk(t)
  {
    hide RunsOf;
  }

  lemma SamePoolOk(s: Sched, t: Sched)
    requires PoolOk(s) && Pool(t) == Pool(s) && t.records == s.records && t.tasks == s.tasks
    ensures PoolOk(t)
  {
    hide Pool;
  }

  lemma HandPool(s: Sched)
    requires s.running.Some?
    ensures Pool(s) == Pool(s.(running := None)) + multiset{s.running.value}
  {
  }

  lemma HeadPool(s: Sched)
    requires s.batch != []
    ensures Pool(s) == Pool(s.(batch := s.batch[1..])) + multiset{s.batch[0]}
  {
    assert s.batch == [s.batch[0]] + s.batch[1..];
  }

  lemma HandHistory(s: Sched)
    requires HistoryOk(s) && s.running.Some?
    requires s.running.value.id in s.tasks ==> s.records[s.running.value.id].repeating
    ensures HistoryOk(s.(running := None))
  {
    hide RunsOf, LogOk;
  }

  lemma LoseHand(s: Sched)
    requires Inv(s) && !s.closed && s.running.Some? && !Live(s, s.running.value)
    requires s.running.value.id in s.tasks ==> s.records[s.running.value.id].repeating
    ensures Inv(s.(running := None))
  {
    hide Plain, HistoryOk, Pool, PoolOk, AllTimed;
    HandPool(s);
    HandHistory(s);
    LosePool(s, s.(running := None), s.running.value);
    SameView(s, s.(running := None));
  }

  lemma AllDueTail(s: Sched, es: seq<Slot>)
    requires AllDue(s, es) && es != []
    ensures AllDue(s, es[1..])
  {
    hide IsDue;
    forall i | 0 <= i < |es[1..]| ensures IsDue(s, es[1..][i]) { assert es[1..][i] == es[i + 1]; }
  }

  lemma LoseHead(s: Sched)
    requires Inv(s) && !s.closed && s.batch != [] && !Live(s, s.batch[0])
    ensures Inv(s.(batch := s.batch[1..]))
  {
    hide Plain, LogOk, OnceOk, Pool, PoolOk, AllDue, AllTimed;
    var t := s.(batch := s.batch[1..]);
    HeadPool(s);
    LosePool(s, t, s.batch[0]);
    SameOnce(s, t);
    AllDueTail(s, s.batch);
    SameView(s, t);
  }

  // ---------------------------------------------------------------------------
  // Polling
  // ---------------------------------------------------------------------------

  lemma HeadDue(s: Sched)
    requires AllDue(s, s.batch) && s.batch != []
    ensures IsDue(s, s.batch[0]) && AllDue(s, [s.batch[0]])
  {
    hide IsDue;
  }

  lemma RunPool(s: Sched)
    requires s.batch != [] && s.running.None?
    ensures Pool(DoRun(s)) == Pool(s)
  {
    HeadPool(s);
  }

  lemma RunHistory(s: Sched)
    requires HistoryOk(s) && TableOk(s) && s.batch != [] && s.running.None? && Live(s, s.batch[0])
    requires IsDue(s, s.batch[0])
    ensures HistoryOk(DoRun(s)) && Plain(DoRun(s).log) == Plain(s.log)
  {
    hide Plain, LogOk, RunsOf;
    var t := DoRun(s);
    LogSnoc(s.log, Ran(s.batch[0].id, s.now));
    forall i | 0 <= i < |t.log| && t.log[i].Added? ensures t.log[i].id in t.records {
      assert t.log[i] == s.log[i];
    }
  }

  lemma RunKeeps(s: Sched, t: Sched)
    requires Inv(s) && Step(s, Run) == Some(t) && !s.closed
    ensures Inv(t)
  {
    hide Plain, HistoryOk, Pool, PoolOk, AllDue, AllTimed, IsDue;
    HeadDue(s);
    RunPool(s);
    RunHistory(s);
    SamePoolOk(s, t);
    AllDueTail(s, s.batch);
    SameView(s, t);
  }

  lemma RetireThins(s: Sched, id: TaskId)
    requires Inv(s) && !s.closed && id in s.records
    ensures Inv(Retire(s, id))
  {
    hide Inv;
    ThinKeeps(s, Retire(s, id), {id});
  }

  lemma FinishKeeps(s: Sched, stop: bool, draw: nat, t: Sched)
    requires Inv(s) && !s.closed && Step(s, Finish(stop, draw)) == Some(t)
    ensures Inv(t)
  {
    hide Plain, RunsOf, LogOk, Pool, PoolOk, DueOk, OnceOk, NextDelay;
    var id := s.running.value.id;
    var rec := s.records[id];
    if !rec.repeating || stop {
      RetireThins(s, id);
      LoseHand(Retire(s, id));
      assert t == Retire(s, id).(running := None);
    } else if rec.canceled {
      LoseHand(s);
    } else {
      var s' := Repeat(s, id, rec.(runs := rec.runs + 1), draw);
      RepeatKeeps(s, id, rec.(runs := rec.runs + 1), draw, s');
      HandStale(s, s', id);
      LoseHand(s');
      assert t == s'.(running := None);
    }
  }

  lemma HandStale(s: Sched, t: Sched, id: TaskId)
    requires PoolOk(s) && s.running.Some? && s.running.value.id == id && t.running == s.running
    requires id in s.records && id in t.records && t.records[id].generation == s.records[id].generation + 1
    ensures !Live(t, t.running.value)
  {
    assert Hand(s)[0] in multiset(Hand(s));
    assert Hand(s)[0] in Pool(s);
  }

  /** The history notes a rejection. */
  lemma RejectedKeeps(s: Sched, id: TaskId, t: Sched)
    requires Inv(s) && !s.closed && t == s.(log := s.log + [Rejected(id, s.now)])
    requires id in Plain(s.log) && Plain(s.log)[id] <= s.now
    ensures Inv(t)
  {
    hide Plain, RunsOf, LogOk, Pool, PoolOk, AllTimed, OnceOk, AllDue;
    HistoryGains(s, t, Rejected(id, s.now));
    SamePool(s, t);
    SamePoolOk(s, t);
    SameView(s, t);
  }

  lemma RejectKeeps(s: Sched, draw: nat, t: Sched)
    requires Inv(s) && !s.closed && Step(s, Reject(draw)) == Some(t)
    ensures Inv(t)
  {
    hide Plain, RunsOf, LogOk, Pool, PoolOk, OnceOk, NextDelay, AllTimed;
    var e := s.batch[0];
    var rec := s.records[e.id];
    var s1 := s.(log := s.log + [Rejected(e.id, s.now)]);
    assert IsDue(s, e);
    RejectedKeeps(s, e.id, s1);
    if !rec.repeating {
      RetireThins(s1, e.id);
      LoseHead(Retire(s1, e.id));
      assert t == Retire(s1, e.id).(batch := s.batch[1..]);
    } else {
      var s2 := Repeat(s1, e.id, rec.(skips := rec.skips + 1), draw);
      RepeatKeeps(s1, e.id, rec.(skips := rec.skips + 1), draw, s2);
      LoseHead(s2);
      assert t == s2.(batch := s.batch[1..]);
    }
  }

  lemma {:induction false} LiveSlotsMembers(s: Sched, es: seq<Slot>)
    ensures forall i | 0 <= i < |LiveSlots(s, es)| :: Live(s, LiveSlots(s, es)[i]) && LiveSlots(s, es)[i] in es
  {
    hide Live;
    if es != [] {
      var front, last := es[..|es| - 1], es[|es| - 1];
      LiveSlotsMembers(s, front);
      assert es == front + [last];
    }
  }

  lemma {:induction false} LiveSlotsCount(s: Sched, es: seq<Slot>, e: Slot)
    ensures multiset(LiveSlots(s, es))[e] == if Live(s, e) then multiset(es)[e] else 0
  {
    hide Live;
    if es != [] {
      var front, last := es[..|es| - 1], es[|es| - 1];
      LiveSlotsCount(s, front, e);
      assert es == front + [last];
    }
  }

  lemma SlotsConcat(a: seq<Timed>, b: seq<Timed>)
    ensures Slots(a + b) == Slots(a) + Slots(b)
  {
  }

  /** Taking entry k out of a queue. */
  lemma TakeOut(ts: seq<Timed>, k: nat)
    requires k < |ts|
    ensures var left := ts[..k] + ts[k + 1..];
            && multiset(ts) == multiset(left) + multiset{ts[k]}
            && multiset(Slots(ts)) == multiset(Slots(left)) + multiset{ts[k].slot}
  {
    hide Slots;
    assert ts == ts[..k] + [ts[k]] + ts[k + 1..];
    SlotsConcat(ts[..k], ts[k + 1..]);
    SlotsConcat(ts[..k] + [ts[k]], ts[k + 1..]);
    SlotsConcat(ts[..k], [ts[k]]);
    OneSlot(ts[k]);
  }

  lemma OneSlot(t: Timed)
    ensures Slots([t]) == [t.slot]
  {
  }

  lemma {:induction false} SlotsPermuted(a: seq<Timed>, b: seq<Timed>)
    requires multiset(a) == multiset(b)
    ensures multiset(Slots(a)) == multiset(Slots(b))
  {
    hide Slots;
    if a == [] {
      assert |b| == |multiset(b)| == 0;
    } else {
      var n := |a| - 1;
      assert a[n] in multiset(b);
      var k :| 0 <= k < |b| && b[k] == a[n];
      TakeOut(a, n);
      TakeOut(b, k);
      assert a[..n] + a[n + 1..] == a[..n];
      var left := b[..k] + b[k + 1..];
      assert multiset(a[..n]) == multiset(a) - multiset{a[n]} && multiset(left) == multiset(b) - multiset{a[n]};
      SlotsPermuted(a[..n], left);
    }
  }

  lemma CollectPool(s: Sched, due: seq<Timed>, rest: seq<Timed>, max: Option<nat>, t: Sched)
    requires BetweenPolls(s) && PopsDue(s, due, rest) && t == DoCollect(s, due, rest, max)
    ensures Pool(s) == multiset(s.ready) + multiset(Slots(due)) + multiset(Slots(rest))
    ensures Pool(t) == multiset(s.ready) + multiset(LiveSlots(s, Slots(due))) + multiset(Slots(rest))
  {
    hide LiveSlots, Slots, PopsDue;
    assert multiset(s.delayed) == multiset(due + rest) by { PopsMultiset(s, due, rest); }
    SlotsPermuted(s.delayed, due + rest);
    SlotsConcat(due, rest);
    var all := s.ready + LiveSlots(s, Slots(due));
    var k := SchedulerModel.Take(max, |all|);
    assert all == all[..k] + all[k..];
    assert multiset(all) == multiset(t.batch) + multiset(t.ready);
  }

  lemma PopsMultiset(s: Sched, due: seq<Timed>, rest: seq<Timed>)
    requires PopsDue(s, due, rest)
    ensures multiset(due) + multiset(rest) == multiset(s.delayed)
  {
  }

  lemma CollectPoolOk(s: Sched, due: seq<Timed>, rest: seq<Timed>, max: Option<nat>, t: Sched)
    requires Inv(s) && !s.closed && BetweenPolls(s) && PopsDue(s, due, rest) && t == DoCollect(s, due, rest, max)
    ensures TableOk(t) && PoolOk(t)
  {
    hide Plain, PopsDue, DueOk, HistoryOk, LiveSlots, Pool;
    CollectPool(s, due, rest, max, t);
    forall e ensures Pool(t)[e] <= Pool(s)[e] && (Live(s, e) ==> Pool(t)[e] == Pool(s)[e]) {
      LiveSlotsCount(s, Slots(due), e);
    }
    forall e | e in Pool(t) ensures e in Pool(s) {}
    forall id | id in t.tasks ensures Pool(t)[Slot(id, t.records[id].generation)] == 1 {
      assert Live(s, Slot(id, s.records[id].generation));
    }
  }

  lemma CollectDue(s: Sched, due: seq<Timed>, rest: seq<Timed>, max: Option<nat>, t: Sched)
    requires DueOk(s) && BetweenPolls(s) && PopsDue(s, due, rest) && t == DoCollect(s, due, rest, max)
    ensures DueOk(t)
  {
    hide Plain;
    var live := LiveSlots(s, Slots(due));
    var all := s.ready + live;
    forall x | x in due || x in rest ensures IsTimed(s, x) {
      assert x in multiset(due) + multiset(rest);
      assert x in multiset(s.delayed);
      var k :| 0 <= k < |s.delayed| && s.delayed[k] == x;
    }
    forall i | 0 <= i < |live| ensures IsDue(t, live[i]) {
      LiveSlotsMembers(s, Slots(due));
      var k :| 0 <= k < |due| && Slots(due)[k] == live[i];
      assert IsTimed(s, due[k]);
    }
    assert AllDue(t, all) by {
      forall i | 0 <= i < |all| ensures IsDue(t, all[i]) {
        if i < |s.ready| { assert IsDue(s, s.ready[i]); }
      }
    }
    assert AllTimed(t, rest) by {
      forall i | 0 <= i < |rest| ensures IsTimed(t, rest[i]) { assert IsTimed(s, rest[i]); }
    }
  }

  lemma CollectKeeps(s: Sched, due: seq<Timed>, rest: seq<Timed>, max: Option<nat>, t: Sched)
    requires Inv(s) && Step(s, Collect(due, rest, max)) == Some(t)
    ensures Inv(t)
  {
    hide Plain, PopsDue, PoolOk, DueOk, LiveSlots, RunsOf, LogOk;
    CollectPoolOk(s, due, rest, max, t);
    CollectDue(s, due, rest, max, t);
  }

  // ---------------------------------------------------------------------------
  // Every step
  // ---------------------------------------------------------------------------

  lemma TickKeeps(s: Sched, d: nat)
    requires Inv(s) && !s.closed
    ensures Inv(s.(now := s.now + d))
  {
    var t := s.(now := s.now + d);
    hide Plain, RunsOf, LogOk, Pool, PoolOk, AllDue, AllTimed;
    SamePool(s, t);
    SamePoolOk(s, t);
    SameView(s, t);
  }

  lemma ShutdownKeeps(s: Sched, t: Sched)
    requires Inv(s) && !s.closed && Step(s, Shutdown) == Some(t)
    ensures Inv(t)
  {
    hide RunsOf, LogOk, TableOk, PoolOk, DueOk;
    assert Twin(t, s);
    assert OpenInv(s);
  }

  lemma DropKeeps(s: Sched, ids: set<TaskId>)
    requires Inv(s) && !s.closed
    ensures Inv(Drop(s, ids))
  {
    hide HistoryOk, PoolOk, DueOk;
    ThinKeeps(s, Drop(s, ids), ids);
  }

  lemma CallKeeps(s: Sched, a: Action, t: Sched)
    requires Inv(s) && !s.closed && Step(s, a) == Some(t)
    requires a.Schedule? || a.ScheduleEvery? || a.Cancel? || a.CancelGroup? || a.Reschedule? || a.UpdatePolicy?
    ensures Inv(t)
  {
    hide Inv, Drop, AddTask, Requeue, GroupMembers, RepeatBackoff.ApplyJitter;
    match a
    case Schedule(delay, group) => AddKeeps(s, NewRecord(group, false, NO_POLICY, 0, 0), delay, t);
    case ScheduleEvery(p, group, draw) =>
      if p.interval > 0 {
        var delay := ApplyJitter(p.interval, p.jitter, draw);
        AddKeeps(s, NewRecord(group, true, p, s.now + delay, delay), delay, t);
      }
    case Cancel(id) => DropKeeps(s, {id});
    case CancelGroup(group) => DropKeeps(s, GroupMembers(s, group));
    case Reschedule(id, delay) =>
      if t != s {
        var rec := s.records[id];
        var moved := rec.(interval := Positive(delay), lastDue := s.now + Positive(delay));
        RequeueKeeps(s, id, if rec.repeating then moved else rec, delay, true, t);
      }
    case UpdatePolicy(id, p, draw) =>
      if t != s {
        var delay := ApplyJitter(p.interval, p.jitter, draw);
        RequeueKeeps(s, id, s.records[id].(policy := p, interval := delay, lastDue := s.now + delay), delay, true, t);
      }
  }

  /** The rest of a poll, and nothing else, goes on after a shutdown as it would without. */
  lemma TwinStep(s: Sched, u: Sched, a: Action, t: Sched)
    requires s.closed && Twin(s, u) && s.tasks == {} && s.ready == [] && Step(s, a) == Some(t)
    ensures t.closed && t.tasks == {} && t.ready == []
    ensures t != s ==> a.Tick? || a.Skip? || a.Reject? || a.Run? || a.Finish?
    ensures t != s ==> Step(u, a).Some? && Twin(t, Step(u, a).value)
  {
    hide NextDelay;
  }

  lemma TwinHistory(s: Sched, u: Sched)
    requires Twin(s, u) && OpenInv(u) && s.tasks == {}
    ensures HistoryOk(s)
  {
    hide RunsOf, LogOk, TableOk, PoolOk, DueOk;
  }

  lemma OpenIsInv(u: Sched)
    ensures OpenInv(u) <==> Inv(u) && !u.closed
  {
    hide HistoryOk, TableOk, PoolOk, DueOk;
  }

  lemma TwinOf(s: Sched) returns (u: Sched)
    requires Inv(s) && s.closed
    ensures Twin(s, u) && OpenInv(u) && s.tasks == {} && s.ready == []
  {
    hide HistoryOk, OpenInv;
    u :| Twin(s, u) && OpenInv(u);
  }

  lemma ClosedKeeps(s: Sched, a: Action, t: Sched)
    requires Inv(s) && s.closed && Step(s, a) == Some(t)
    ensures Inv(t)
  {
    var u := TwinOf(s);
    hide Inv, OpenInv, Step, Twin;
    TwinStep(s, u, a, t);
    if t != s {
      var v := Step(u, a).value;
      OpenIsInv(u);
      OpenStepKeeps(u, a, v);
      StaysOpen(u, a, v);
      OpenIsInv(v);
      TwinHistory(t, v);
      ClosedInv(t, v);
    }
  }

  lemma ClosedInv(s: Sched, u: Sched)
    requires s.closed && s.tasks == {} && s.ready == [] && HistoryOk(s) && Twin(s, u) && OpenInv(u)
    ensures Inv(s)
  {
    hide HistoryOk, OpenInv, Twin;
  }

  lemma StaysOpen(u: Sched, a: Action, v: Sched)
    requires !u.closed && Step(u, a) == Some(v) && !a.Shutdown?
    ensures !v.closed
  {
    hide NextDelay, RepeatBackoff.ApplyJitter, LiveSlots, PopsDue;
  }

  lemma StepKeeps(s: Sched, a: Action, t: Sched)
    requires Inv(s) && Step(s, a) == Some(t)
    ensures Inv(t)
  {
    hide Inv;
    if s.closed { ClosedKeeps(s, a, t); return; }
    OpenStepKeeps(s, a, t);
  }

  lemma OpenStepKeeps(s: Sched, a: Action, t: Sched)
    requires Inv(s) && !s.closed && Step(s, a) == Some(t)
    ensures Inv(t)
  {
    hide Inv;
    match a
    case Tick(d) => TickKeeps(s, d);
    case Shutdown => ShutdownKeeps(s, t);
    case Collect(due, rest, max) => CollectKeeps(s, due, rest, max, t);
    case Skip => LoseHead(s);
    case Reject(draw) => RejectKeeps(s, draw, t);
    case Run => RunKeeps(s, t);
    case Finish(stop, draw) => FinishKeeps(s, stop, draw, t);
    case _ => CallKeeps(s, a, t);
  }

  lemma {:induction false} RunKeepsInv(s: Sched, actions: seq<Action>)
    requires Inv(s) && RunFrom(s, actions).Some?
    ensures Inv(RunFrom(s, actions).value)
  {
    hide Inv, Step;
    if actions != [] {
      RunKeepsInv(s, actions[..|actions| - 1]);
      StepKeeps(RunFrom(s, actions[..|actions| - 1]).value, actions[|actions| - 1], RunFrom(s, actions).value);
    }
  }

  lemma ReachableInv(s: Sched)
    requires Reachable(s)
    ensures Inv(s)
  {
    var actions :| RunFrom(EMPTY, actions) == Some(s);
    assert Inv(EMPTY);
    RunKeepsInv(EMPTY, actions);
  }
}
