/** One whole poll against the plain map, and the delays of repeating tasks over whole runs. */
module SchedulerPoll {
  import opened Numbers
  import opened Options
  import opened RepeatBackoff
  import opened SchedulerModel
  import opened SchedulerProofs
  import opened SchedulerTheorems

  /** The tasks that a plain map from task to due time says are due. */
  function DueIds(s: Sched): set<TaskId> {
    set id | id in Plain(s.log) && Plain(s.log)[id] <= s.now
  }

  function LiveIds(s: Sched, es: seq<Slot>): seq<TaskId> {
    if es == [] then [] else (if Live(s, es[0]) then [es[0].id] else []) + LiveIds(s, es[1..])
  }

  /** The tasks run or rejected since the log had n events, in order. */
  function PickedSince(log: seq<Event>, n: nat): seq<TaskId> {
    if |log| <= n then [] else
      var ev := log[|log| - 1];
      PickedSince(log[..|log| - 1], n) + if ev.Ran? || ev.Rejected? then [ev.id] else []
  }

  lemma PickedSnoc(log: seq<Event>, ev: Event, n: nat)
    requires n <= |log|
    ensures PickedSince(log + [ev], n) == PickedSince(log, n) + if ev.Ran? || ev.Rejected? then [ev.id] else []
  {
    assert (log + [ev])[..|log|] == log;
  }

  lemma LiveMeans(s: Sched, e: Slot)
    requires TableOk(s)
    ensures Live(s, e) <==> e.id in s.tasks && e == Slot(e.id, s.records[e.id].generation)
  {
  }

  lemma {:induction false} LiveIdsCount(s: Sched, es: seq<Slot>, id: TaskId)
    requires TableOk(s)
    ensures multiset(LiveIds(s, es))[id] ==
            if id in s.tasks then multiset(es)[Slot(id, s.records[id].generation)] else 0
  {
    hide Live;
    if es != [] {
      LiveIdsCount(s, es[1..], id);
      assert es == [es[0]] + es[1..];
      LiveMeans(s, es[0]);
    }
  }

  lemma {:induction false} SameLiveIds(s: Sched, t: Sched, es: seq<Slot>)
    requires forall i | 0 <= i < |es| :: Live(s, es[i]) <==> Live(t, es[i])
    ensures LiveIds(s, es) == LiveIds(t, es)
  {
    if es != [] {
      assert forall i | 0 <= i < |es[1..]| :: es[1..][i] == es[i + 1];
      SameLiveIds(s, t, es[1..]);
    }
  }

  /** After an unlimited collect, a live entry of a task is in the batch exactly when the task is due. */
  lemma BatchedWhenDue(c: Sched, id: TaskId)
    requires Inv(c) && !c.closed && c.ready == [] && c.running.None? && id in c.tasks
    requires forall i | 0 <= i < |c.delayed| :: c.delayed[i].due > c.now
    ensures multiset(c.batch)[Slot(id, c.records[id].generation)] == if Plain(c.log)[id] <= c.now then 1 else 0
  {
    hide Plain, HistoryOk;
    var e := Slot(id, c.records[id].generation);
    assert Pool(c)[e] == 1 && Live(c, e);
    if e in c.batch {
      var i :| 0 <= i < |c.batch| && c.batch[i] == e;
      assert IsDue(c, c.batch[i]);
    }
    if e in Slots(c.delayed) {
      var i :| 0 <= i < |c.delayed| && Slots(c.delayed)[i] == e;
      assert IsTimed(c, c.delayed[i]);
    }
  }

  lemma CollectSelects(s: Sched, due: seq<Timed>, rest: seq<Timed>, c: Sched)
    requires Inv(s) && Step(s, Collect(due, rest, None)) == Some(c)
    ensures Inv(c) && c.log == s.log && c.running.None? && !c.closed
    ensures multiset(LiveIds(c, c.batch)) == multiset(DueIds(s))
  {
    hide Plain, Inv, LiveIds, Step;
    CollectKeeps(s, due, rest, None, c);
    CollectShape(s, due, rest, c);
    PlainTasks(c);
    forall id ensures multiset(LiveIds(c, c.batch))[id] == multiset(DueIds(s))[id] {
      LiveIdsCount(c, c.batch, id);
      if id in c.tasks { BatchedWhenDue(c, id); }
    }
  }

  /** An unlimited collect leaves nothing ready and nothing due behind. */
  lemma CollectShape(s: Sched, due: seq<Timed>, rest: seq<Timed>, c: Sched)
    requires Step(s, Collect(due, rest, None)) == Some(c)
    ensures c.ready == [] && c.log == s.log && c.running.None? && !c.closed && c.now == s.now
    ensures forall i | 0 <= i < |c.delayed| :: c.delayed[i].due > c.now
  {
    hide LiveSlots;
  }

  lemma PlainTasks(s: Sched)
    requires Inv(s) && !s.closed
    ensures TableOk(s) && Plain(s.log).Keys == s.tasks
  {
    hide Plain, HistoryOk, PoolOk;
  }

  predicate IsQuiet(a: Action) {
    a.Tick? || a.Skip? || a.Reject? || a.Run? || a.Finish?
  }

  /** While a callback runs, the batch holds no live entry of its task. */
  ghost predicate BatchApart(s: Sched) {
    s.running.Some? ==> forall i | 0 <= i < |s.batch| && s.batch[i].id == s.running.value.id :: !Live(s, s.batch[i])
  }

  /** A drain in progress: picked so far, then what is still live in the batch, is the selection. */
  ghost predicate Draining(s: Sched, n: nat, selection: seq<TaskId>) {
    && Inv(s) && !s.closed && n <= |s.log|
    && BatchApart(s)
    && PickedSince(s.log, n) + LiveIds(s, s.batch) == selection
  }

  /** A live entry that is not in the batch leaves no live entry of its task there. */
  lemma NoTwin(s: Sched, e: Slot, es: seq<Slot>)
    requires Inv(s) && !s.closed && Live(s, e) && multiset(es) + multiset{e} <= Pool(s)
    ensures forall i | 0 <= i < |es| && es[i].id == e.id :: !Live(s, es[i])
  {
    hide Plain, HistoryOk, DueOk, Pool;
    assert Pool(s)[e] == 1;
    forall i | 0 <= i < |es| && es[i].id == e.id ensures !Live(s, es[i]) {
      assert es[i] in multiset(es);
    }
  }

  /** Handling task id leaves the live entries of the others, and any old entry of it, as they were. */
  lemma HandledLive(s: Sched, t: Sched, id: TaskId, es: seq<Slot>)
    requires Inv(s) && !s.closed && multiset(es) <= Pool(s)
    requires forall i | 0 <= i < |es| && es[i].id == id :: !Live(s, es[i])
    requires id in s.records && id in t.records && t.records == s.records[id := t.records[id]]
    requires t.records[id].canceled || t.records[id].generation == s.records[id].generation + 1
    ensures LiveIds(t, es) == LiveIds(s, es)
  {
    hide Plain, HistoryOk, DueOk, Pool, LiveIds;
    forall i | 0 <= i < |es| ensures Live(s, es[i]) <==> Live(t, es[i]) {
      assert es[i] in multiset(es);
      assert es[i] in Pool(s);
    }
    SameLiveIds(s, t, es);
  }

  lemma DrainRun(s: Sched, t: Sched, n: nat, selection: seq<TaskId>)
    requires Draining(s, n, selection) && Step(s, Run) == Some(t)
    ensures Draining(t, n, selection)
  {
    hide Inv, LiveIds, PickedSince;
    RunKeeps(s, t);
    RunApart(s, t);
    PickedSnoc(s.log, Ran(s.batch[0].id, s.now), n);
    LiveIdsHead(s, s.batch);
    SameLiveIds(s, t, t.batch);
  }

  /** The entry that starts was the only live one of its task. */
  lemma RunApart(s: Sched, t: Sched)
    requires Inv(s) && !s.closed && Step(s, Run) == Some(t)
    ensures BatchApart(t)
  {
    hide Inv, Pool;
    HeadPool(s);
    BatchInPool(s.(batch := t.batch));
    NoTwin(s, s.batch[0], t.batch);
  }

  lemma LiveIdsHead(s: Sched, es: seq<Slot>)
    requires es != []
    ensures LiveIds(s, es) == (if Live(s, es[0]) then [es[0].id] else []) + LiveIds(s, es[1..])
  {
  }

  lemma RejectPicked(s: Sched, draw: nat, t: Sched, n: nat)
    requires Step(s, Reject(draw)) == Some(t) && s.running.None? && n <= |s.log|
    ensures s.batch != [] && n <= |t.log| && PickedSince(t.log, n) == PickedSince(s.log, n) + [s.batch[0].id]
  {
    RejectLog(s, draw, t);
    hide Step, PickedSince;
    var mid := s.log + [Rejected(s.batch[0].id, s.now)];
    PickedSnoc(s.log, Rejected(s.batch[0].id, s.now), n);
    PickedSnoc(mid, t.log[|mid|], n);
    assert t.log == mid + [t.log[|mid|]];
  }

  lemma RejectChanges(s: Sched, draw: nat, t: Sched)
    requires Step(s, Reject(draw)) == Some(t)
    ensures s.batch != [] && s.running.None? && t.running.None? && Live(s, s.batch[0]) && t.batch == s.batch[1..]
    ensures t.closed == s.closed
    ensures var id := s.batch[0].id;
            && id in s.records && id in t.records && t.records == s.records[id := t.records[id]]
            && (t.records[id].canceled || t.records[id].generation == s.records[id].generation + 1)
  {
    hide NextDelay;
  }

  lemma DrainReject(s: Sched, draw: nat, t: Sched, n: nat, selection: seq<TaskId>)
    requires Draining(s, n, selection) && Step(s, Reject(draw)) == Some(t)
    ensures Draining(t, n, selection)
  {
    hide Inv, LiveIds, PickedSince, Step, Pool;
    RejectChanges(s, draw, t);
    RejectKeeps(s, draw, t);
    RejectPicked(s, draw, t, n);
    LiveIdsHead(s, s.batch);
    HeadPool(s);
    BatchInPool(s.(batch := t.batch));
    NoTwin(s, s.batch[0], t.batch);
    HandledLive(s, t, s.batch[0].id, t.batch);
  }

  lemma BatchInPool(s: Sched)
    ensures multiset(s.batch) <= Pool(s)
  {
  }

  lemma DrainFinish(s: Sched, stop: bool, draw: nat, t: Sched, n: nat, selection: seq<TaskId>)
    requires Draining(s, n, selection) && Step(s, Finish(stop, draw)) == Some(t)
    ensures Draining(t, n, selection)
  {
    hide Inv, LiveIds, PickedSince, NextDelay;
    var e := s.running.value;
    FinishKeeps(s, stop, draw, t);
    if t.log != s.log { PickedSnoc(s.log, t.log[|s.log|], n); }
    HandledLive(s, t, e.id, s.batch) by { BatchInPool(s); }
  }

  lemma DrainStep(s: Sched, a: Action, t: Sched, n: nat, selection: seq<TaskId>)
    requires Draining(s, n, selection) && IsQuiet(a) && Step(s, a) == Some(t)
    ensures Draining(t, n, selection)
  {
    hide Draining;
    match a
    case Run => DrainRun(s, t, n, selection);
    case Reject(draw) => DrainReject(s, draw, t, n, selection);
    case Finish(stop, draw) => DrainFinish(s, stop, draw, t, n, selection);
    case Tick(d) => DrainTick(s, d, n, selection);
    case Skip => DrainSkip(s, n, selection);
  }

  lemma DrainTick(s: Sched, d: nat, n: nat, selection: seq<TaskId>)
    requires Draining(s, n, selection)
    ensures Draining(s.(now := s.now + d), n, selection)
  {
    hide Inv, LiveIds, PickedSince, BatchApart;
    TickKeeps(s, d);
    assert BatchApart(s.(now := s.now + d)) by { ApartSame(s, s.(now := s.now + d)); }
    SameLiveIds(s, s.(now := s.now + d), s.batch);
  }

  lemma ApartSame(s: Sched, t: Sched)
    requires BatchApart(s) && t.records == s.records && t.running == s.running && t.batch == s.batch
    ensures BatchApart(t)
  {
  }

  lemma DrainSkip(s: Sched, n: nat, selection: seq<TaskId>)
    requires Draining(s, n, selection) && s.batch != [] && !Live(s, s.batch[0])
    ensures Draining(s.(batch := s.batch[1..]), n, selection)
  {
    hide Inv, LiveIds, PickedSince;
    LoseHead(s);
    LiveIdsHead(s, s.batch);
    SameLiveIds(s, s.(batch := s.batch[1..]), s.batch[1..]);
  }

  lemma {:induction false} DrainAll(s: Sched, actions: seq<Action>, n: nat, selection: seq<TaskId>)
    requires Draining(s, n, selection) && RunFrom(s, actions).Some?
    requires forall i | 0 <= i < |actions| :: IsQuiet(actions[i])
    ensures Draining(RunFrom(s, actions).value, n, selection)
  {
    hide Draining, Step;
    if actions != [] {
      var front := actions[..|actions| - 1];
      DrainAll(s, front, n, selection);
      DrainStep(RunFrom(s, front).value, actions[|actions| - 1], RunFrom(s, actions).value, n, selection);
    }
  }

  /**
   An unlimited poll whose callbacks leave the scheduler alone runs or rejects exactly the tasks that the plain map
   says are due when it collects, each once, in batch order.
   */
  lemma UnlimitedPollIsExact(s: Sched, due: seq<Timed>, rest: seq<Timed>, c: Sched, actions: seq<Action>, t: Sched)
    requires Reachable(s) && Step(s, Collect(due, rest, None)) == Some(c)
    requires RunFrom(c, actions) == Some(t) && BetweenPolls(t) && forall i | 0 <= i < |actions| :: IsQuiet(actions[i])
    ensures PickedSince(t.log, |s.log|) == LiveIds(c, c.batch)
    ensures multiset(PickedSince(t.log, |s.log|)) == multiset(DueIds(s))
  {
    hide Reachable, Inv, Step, LiveIds, RunFrom;
    ReachableInv(s);
    CollectSelects(s, due, rest, c);
    assert PickedSince(c.log, |s.log|) == [];
    DrainAll(c, actions, |s.log|, LiveIds(c, c.batch));
    assert LiveIds(t, t.batch) == [] by { LiveIdsNone(t); }
  }

  lemma LiveIdsNone(t: Sched)
    ensures LiveIds(t, []) == []
  {
  }

  // ---------------------------------------------------------------------------
  // Shutdown
  // ---------------------------------------------------------------------------

  /** An entry that is not live never becomes live again. */
  lemma NeverRevives(s: Sched, a: Action, t: Sched, e: Slot)
    requires Inv(s) && !s.closed && Step(s, a) == Some(t) && e in Pool(s) && Live(t, e)
    ensures Live(s, e)
  {
    hide HistoryOk, DueOk, Pool, NextDelay, ApplyJitter, PopsDue, LiveSlots;
  }

  lemma StepApart(s: Sched, a: Action, t: Sched)
    requires Inv(s) && !s.closed && BatchApart(s) && Step(s, a) == Some(t)
    ensures BatchApart(t)
  {
    hide Inv, Pool;
    if a.Run? {
      RunApart(s, t);
    } else if t.running.Some? {
      CallBatch(s, a, t);
      BatchInPool(s);
      forall i | 0 <= i < |t.batch| && t.batch[i].id == t.running.value.id ensures !Live(t, t.batch[i]) {
        assert t.batch[i] in multiset(s.batch);
        if Live(t, t.batch[i]) { NeverRevives(s, a, t, t.batch[i]); }
      }
    }
  }

  lemma CallBatch(s: Sched, a: Action, t: Sched)
    requires Step(s, a) == Some(t) && t.running.Some? && !a.Run?
    ensures t.batch == s.batch && t.running == s.running
  {
    hide NextDelay, ApplyJitter, PopsDue, LiveSlots;
  }

  lemma {:induction false} ReachableApart(actions: seq<Action>)
    requires RunFrom(EMPTY, actions).Some?
    ensures var s := RunFrom(EMPTY, actions).value;
            s.closed || BatchApart(s)
  {
    hide Inv, Step, BatchApart;
    if actions == [] {
      assert BatchApart(EMPTY) by { EmptyApart(); }
    } else {
      var front, a := actions[..|actions| - 1], actions[|actions| - 1];
      ReachableApart(front);
      EmptyInv();
      RunKeepsInv(EMPTY, front);
      var s, t := RunFrom(EMPTY, front).value, RunFrom(EMPTY, actions).value;
      if s.closed { StaysClosed(s, a, t); } else { StepApart(s, a, t); }
    }
  }

  lemma EmptyApart()
    ensures BatchApart(EMPTY)
  {
  }

  lemma StaysClosed(s: Sched, a: Action, t: Sched)
    requires s.closed && Step(s, a) == Some(t)
    ensures t.closed
  {
    hide NextDelay, ApplyJitter;
  }

  /** What is left of a poll after a shutdown drains as without it. */
  ghost predicate Tail(t: Sched, n: nat, selection: seq<TaskId>) {
    t.closed && t.tasks == {} && t.ready == [] && exists u :: Twin(t, u) && Draining(u, n, selection)
  }

  lemma TailStep(s: Sched, a: Action, t: Sched, n: nat, selection: seq<TaskId>)
    requires Tail(s, n, selection) && Step(s, a) == Some(t)
    ensures Tail(t, n, selection)
  {
    hide Draining, Step, Twin;
    var u :| Twin(s, u) && Draining(u, n, selection);
    TwinStep(s, u, a, t);
    if t != s { DrainStep(u, a, Step(u, a).value, n, selection); }
  }

  lemma {:induction false} TailRun(s: Sched, actions: seq<Action>, n: nat, selection: seq<TaskId>)
    requires Tail(s, n, selection) && RunFrom(s, actions).Some?
    ensures Tail(RunFrom(s, actions).value, n, selection)
  {
    hide Tail, Step;
    if actions != [] {
      var front := actions[..|actions| - 1];
      TailRun(s, front, n, selection);
      TailStep(RunFrom(s, front).value, actions[|actions| - 1], RunFrom(s, actions).value, n, selection);
    }
  }

  /**
   After a shutdown, wherever it comes, the tasks that still start or are rejected are exactly the live entries of the
   batch the current poll has collected, in its order, whatever is called meanwhile. Nothing at all starts if and only
   if there are none, as between polls.
   */
  lemma ShutdownLeavesBatch(s: Sched, actions: seq<Action>, t: Sched)
    requires Reachable(s) && !s.closed && RunFrom(DoShutdown(s), actions) == Some(t)
    ensures PickedSince(t.log, |s.log|) + LiveIds(t, t.batch) == LiveIds(s, s.batch)
    ensures BetweenPolls(t) ==> PickedSince(t.log, |s.log|) == LiveIds(s, s.batch)
    ensures BetweenPolls(s) ==> PickedSince(t.log, |s.log|) == []
  {
    hide Reachable, Inv, LiveIds, RunFrom, Step, PickedSince, BatchApart;
    var selection := LiveIds(s, s.batch);
    StartsDraining(s, selection);
    assert Twin(DoShutdown(s), s);
    assert Tail(DoShutdown(s), |s.log|, selection);
    TailRun(DoShutdown(s), actions, |s.log|, selection);
    TailShows(t, |s.log|, selection);
    LiveIdsNone(t);
    LiveIdsNone(s);
  }

  /** A limited poll takes at most its limit, the entries that have waited longest, and leaves the rest in order. */
  lemma LimitedCollect(s: Sched, due: seq<Timed>, rest: seq<Timed>, limit: nat, t: Sched)
    requires Step(s, Collect(due, rest, Some(limit))) == Some(t)
    ensures t.batch + t.ready == s.ready + LiveSlots(s, Slots(due)) && |t.batch| <= limit
    ensures |t.batch| < limit ==> t.ready == []
  {
    hide LiveSlots, PopsDue, Slots;
    var all := s.ready + LiveSlots(s, Slots(due));
    var k := Take(Some(limit), |all|);
    assert all[..k] + all[k..] == all && [] + all[..k] == all[..k];
  }

  /** Two tasks are due, a poll has collected both, and the callback of the first one runs. */
  const TWO_DUE := [] + [Schedule(0, 0)] + [Schedule(0, 0)] + [Collect([], [], None)] + [Run]

  lemma RunFromSnoc(s: Sched, actions: seq<Action>, a: Action, t: Sched)
    requires RunFrom(s, actions) == Some(t)
    ensures RunFrom(s, actions + [a]) == Step(t, a)
  {
    assert (actions + [a])[..|actions|] == actions;
  }

  /** A one-shot task that is due. */
  const DUE := NewRecord(0, false, NO_POLICY, 0, 0)

  const TWO_LOG := [Added(1, 0), Added(2, 0), Ran(1, 0)]

  function FirstOfTwo(): Sched {
    Sched(0, false, map[1 := DUE, 2 := DUE], {1, 2}, [], [], 3, [Slot(2, 0)], Some(Slot(1, 0)), TWO_LOG)
  }

  function BothReady(): Sched {
    FirstOfTwo().(ready := [Slot(1, 0), Slot(2, 0)], batch := [], running := None, log := [Added(1, 0), Added(2, 0)])
  }

  lemma TwoScheduled()
    ensures DoSchedule(DoSchedule(EMPTY, 0, 0), 0, 0) == BothReady()
  {
    assert DoSchedule(EMPTY, 0, 0).log == [Added(1, 0)];
  }

  lemma BothCollected()
    ensures var s := BothReady();
            && PopsDue(s, [], []) && DoCollect(s, [], [], None) == s.(ready := [], batch := [Slot(1, 0), Slot(2, 0)])
            && DoRun(DoCollect(s, [], [], None)) == FirstOfTwo()
  {
    assert Slots([]) == [];
  }

  lemma TwoDueRuns()
    ensures RunFrom(EMPTY, TWO_DUE) == Some(FirstOfTwo())
  {
    assert RunFrom(EMPTY, []) == Some(EMPTY);
    hide RunFrom, DoSchedule, DoCollect, DoRun, PopsDue;
    TwoScheduled();
    BothCollected();
    var s := BothReady();
    RunFromSnoc(EMPTY, [], Schedule(0, 0), EMPTY);
    RunFromSnoc(EMPTY, [] + [Schedule(0, 0)], Schedule(0, 0), DoSchedule(EMPTY, 0, 0));
    RunFromSnoc(EMPTY, [] + [Schedule(0, 0)] + [Schedule(0, 0)], Collect([], [], None), s);
    RunFromSnoc(EMPTY, [] + [Schedule(0, 0)] + [Schedule(0, 0)] + [Collect([], [], None)], Run,
                DoCollect(s, [], [], None));
  }

  /** A shutdown in the first callback does not keep the second task from starting. */
  lemma ShutdownStillStarts()
    ensures var run := RunFrom(EMPTY, TWO_DUE + [Shutdown] + [Finish(false, 0)] + [Run]);
            && run.Some? && run.value.closed && run.value.tasks == {}
            && run.value.log == [Added(1, 0), Added(2, 0), Ran(1, 0), Removed({1}), Ran(2, 0)]
  {
    hide RunFrom;
    TwoDueRuns();
    var s1 := DoShutdown(FirstOfTwo());
    RunFromSnoc(EMPTY, TWO_DUE, Shutdown, FirstOfTwo());
    RunFromSnoc(EMPTY, TWO_DUE + [Shutdown], Finish(false, 0), s1);
    RunFromSnoc(EMPTY, TWO_DUE + [Shutdown] + [Finish(false, 0)], Run, DoFinish(s1, false, 0));
  }

  lemma StartsDraining(s: Sched, selection: seq<TaskId>)
    requires Reachable(s) && !s.closed && selection == LiveIds(s, s.batch)
    ensures Draining(s, |s.log|, selection)
  {
    hide LiveIds, RunFrom, Inv, BatchApart;
    ReachableInv(s);
    var actions :| RunFrom(EMPTY, actions) == Some(s);
    ReachableApart(actions);
    assert PickedSince(s.log, |s.log|) == [];
    assert [] + selection == selection;
  }

  lemma TailShows(t: Sched, n: nat, selection: seq<TaskId>)
    requires Tail(t, n, selection)
    ensures PickedSince(t.log, n) + LiveIds(t, t.batch) == selection
  {
    hide Inv, LiveIds, PickedSince, BatchApart;
    var u :| Twin(t, u) && Draining(u, n, selection);
    SameLiveIds(u, t, t.batch);
  }

  // ---------------------------------------------------------------------------
  // Delays of a repeating task over whole runs
  // ---------------------------------------------------------------------------

  /** No reschedule and no policy update has touched the task. */
  ghost predicate Untouched(log: seq<Event>, id: TaskId) {
    forall i | 0 <= i < |log| && log[i].Moved? && log[i].id == id :: !log[i].requested
  }

  /** The bounds of a delay with jitter: the ceiling of a growing one, the interval of one that does not grow. */
  predicate Within(p: Policy, delay: int) {
    && p.interval > 0
    && (p.multiplier > 1.0 && p.maxInterval >= p.interval ==> delay <= p.maxInterval + Positive(p.jitter))
    && (p.multiplier <= 1.0 ==> p.interval <= delay <= p.interval + Positive(p.jitter))
  }

  lemma DelaysWithin(p: Policy, current: int, draw: nat)
    requires p.interval > 0 && IsDraw(p, draw)
    ensures Within(p, ApplyJitter(p.interval, p.jitter, draw)) && Within(p, NextDelay(p, current, draw))
  {
  }

  ghost predicate DelayOk(s: Sched, id: TaskId)
    requires id in s.records
  {
    var r := s.records[id];
    r.repeating && Untouched(s.log, id) ==>
      Within(r.policy, r.interval) && (r.policy.jitter <= 0 ==> r.interval == DelayAfter(r.policy, r.runs + r.skips))
  }

  ghost predicate DelaysOk(s: Sched) {
    forall id | id in s.records :: DelayOk(s, id)
  }

  lemma DrawIgnored(p: Policy, current: int, draw: nat)
    requires p.jitter <= 0
    ensures NextDelay(p, current, draw) == NextDelay(p, current, 0)
    ensures ApplyJitter(p.interval, p.jitter, draw) == DelayAfter(p, 0)
  {
  }

  lemma UntouchedPrefix(s: Sched, t: Sched, id: TaskId)
    requires s.log <= t.log && Untouched(t.log, id)
    ensures Untouched(s.log, id)
  {
    forall i | 0 <= i < |s.log| && s.log[i].Moved? && s.log[i].id == id ensures !s.log[i].requested {
      assert t.log[i] == s.log[i];
    }
  }

  /** A record whose delay, policy and counts did not change keeps its delay right. */
  lemma DelayKept(s: Sched, t: Sched, id: TaskId)
    requires id in s.records && id in t.records && DelayOk(s, id) && s.log <= t.log
    requires var r, r' := s.records[id], t.records[id];
             && r'.repeating == r.repeating && r'.policy == r.policy && r'.interval == r.interval
             && r'.runs == r.runs && r'.skips == r.skips
    ensures DelayOk(t, id)
  {
    hide DelayAfter;
    if Untouched(t.log, id) { UntouchedPrefix(s, t, id); }
  }

  lemma RepeatDelay(s: Sched, id: TaskId, rec: Record, draw: nat)
    requires id in s.records && DelayOk(s, id) && IsDraw(s.records[id].policy, draw)
    requires rec == s.records[id].(runs := s.records[id].runs + 1) || rec ==
               s.records[id].(skips := s.records[id].skips + 1)
    ensures DelayOk(Repeat(s, id, rec, draw), id)
  {
    var t := Repeat(s, id, rec, draw);
    var r := s.records[id];
    if Untouched(t.log, id) && r.repeating {
      UntouchedPrefix(s, t, id);
      DelaysWithin(r.policy, r.interval, draw);
      if r.policy.jitter <= 0 { DrawIgnored(r.policy, r.interval, draw); }
    }
  }

  lemma CallDelays(s: Sched, a: Action, t: Sched)
    requires Inv(s) && DelaysOk(s) && Step(s, a) == Some(t) && s.log <= t.log && !a.Reject? && !a.Finish?
    ensures DelaysOk(t)
  {
    hide Inv, DelayAfter, NextDelay, PopsDue, LiveSlots, ApplyJitter, Untouched, Within;
    NextIdFresh(s);
    forall id | id in t.records ensures DelayOk(t, id) {
      if a.ScheduleEvery? && id !in s.records {
        if a.policy.interval > 0 { DelaysWithin(a.policy, 0, a.draw); }
        if a.policy.jitter <= 0 { DrawIgnored(a.policy, 0, a.draw); }
      } else if (a.Reschedule? || a.UpdatePolicy?) && a.id == id && t.log != s.log {
        Touched(t.log, id);
      } else if id in s.records {
        DelayKept(s, t, id);
      }
    }
  }

  lemma NextIdFresh(s: Sched)
    requires Inv(s)
    ensures !s.closed ==> s.nextId !in s.records
  {
    hide HistoryOk, PoolOk, DueOk;
  }

  lemma Touched(log: seq<Event>, id: TaskId)
    requires log != [] && log[|log| - 1].Moved? && log[|log| - 1].id == id && log[|log| - 1].requested
    ensures !Untouched(log, id)
  {
  }

  lemma RejectDelays(s: Sched, draw: nat, t: Sched)
    requires DelaysOk(s) && Step(s, Reject(draw)) == Some(t) && s.log <= t.log
    ensures DelaysOk(t)
  {
    hide DelayAfter, NextDelay, Untouched, Within;
    var e := s.batch[0].id;
    var mid := s.(batch := s.batch[1..], log := s.log + [Rejected(e, s.now)]);
    forall id | id in t.records ensures DelayOk(t, id) {
      if id == e && s.records[e].repeating {
        DelayKept(s, mid, e);
        RepeatDelay(mid, e, s.records[e].(skips := s.records[e].skips + 1), draw);
      } else {
        DelayKept(s, t, id);
      }
    }
  }

  lemma FinishDelays(s: Sched, stop: bool, draw: nat, t: Sched)
    requires DelaysOk(s) && Step(s, Finish(stop, draw)) == Some(t) && s.log <= t.log
    ensures DelaysOk(t)
  {
    hide DelayAfter, NextDelay, Untouched, Within;
    var e := s.running.value.id;
    var rec := s.records[e];
    var mid := s.(running := None);
    forall id | id in t.records ensures DelayOk(t, id) {
      if id == e && rec.repeating && !stop && !rec.canceled {
        DelayKept(s, mid, e);
        RepeatDelay(mid, e, rec.(runs := rec.runs + 1), draw);
      } else {
        DelayKept(s, t, id);
      }
    }
  }

  lemma {:induction false} RunDelays(actions: seq<Action>)
    requires RunFrom(EMPTY, actions).Some?
    ensures DelaysOk(RunFrom(EMPTY, actions).value)
  {
    hide Inv, Step, DelaysOk;
    if actions == [] {
      EmptyDelays();
    } else {
      var front, a := actions[..|actions| - 1], actions[|actions| - 1];
      var s, t := RunFrom(EMPTY, front).value, RunFrom(EMPTY, actions).value;
      RunDelays(front);
      EmptyInv();
      RunKeepsInv(EMPTY, front);
      StepLogGrows(s, a, t);
      if a.Reject? { RejectDelays(s, a.draw, t); }
      else if a.Finish? { FinishDelays(s, a.stop, a.draw, t); }
      else { CallDelays(s, a, t); }
    }
  }

  lemma EmptyDelays()
    ensures DelaysOk(EMPTY)
  {
  }

  lemma EmptyInv()
    ensures Inv(EMPTY)
  {
  }

  /**
   In every reachable state, the delay of a repeating task that nobody rescheduled is its interval times the growth
   factor once per run or skip, up to the ceiling.
   */
  lemma RepeatBacksOff(s: Sched, id: TaskId, m: nat)
    requires Reachable(s) && id in s.records && s.records[id].repeating && Untouched(s.log, id)
    requires var p := s.records[id].policy;
             p.interval > 0 && p.jitter <= 0 && m > 1 && p.multiplier ==
               m as real && (p.maxInterval > 0 ==> p.maxInterval >= p.interval)
    ensures var r := s.records[id];
            r.interval == Capped(r.policy, r.policy.interval * Power(m, r.runs + r.skips))
  {
    hide DelayAfter, Capped, Power, Untouched, RunFrom;
    var actions :| RunFrom(EMPTY, actions) == Some(s);
    RunDelays(actions);
    assert DelayOk(s, id);
    GeometricBackoff(s.records[id].policy, m, s.records[id].runs + s.records[id].skips);
  }

  /**
   With jitter, in every reachable state: the delay of a repeating task that nobody rescheduled is at most its ceiling
   plus the jitter when it grows, and within the jitter of its interval when it does not.
   */
  lemma JitterBounds(s: Sched, id: TaskId)
    requires Reachable(s) && id in s.records && s.records[id].repeating && Untouched(s.log, id)
    ensures var r := s.records[id];
            && (r.policy.multiplier > 1.0 && r.policy.maxInterval >= r.policy.interval ==>
                  r.interval <= r.policy.maxInterval + Positive(r.policy.jitter))
            && (r.policy.multiplier <= 1.0 ==>
                  r.policy.interval <= r.interval <= r.policy.interval + Positive(r.policy.jitter))
  {
    hide DelayAfter, Untouched, RunFrom;
    var actions :| RunFrom(EMPTY, actions) == Some(s);
    RunDelays(actions);
    assert DelayOk(s, id);
  }
}
