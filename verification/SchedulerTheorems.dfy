/** What holds of the scheduler in every reachable state and over every run. */
module SchedulerTheorems {
  import opened Options
  import opened RepeatBackoff
  import opened SchedulerModel
  import opened SchedulerProofs

  // ---------------------------------------------------------------------------
  // Refinement: the queues index the plain map
  // ---------------------------------------------------------------------------

  /**
   Between polls every task in the table has exactly one queue entry of its current generation: in the ready queue
   when it is due, or in the delayed queue under its due time.
   */
  lemma QueuesIndexTasks(s: Sched, id: TaskId)
    requires Reachable(s) && BetweenPolls(s) && !s.closed
    ensures id in s.tasks <==> id in Plain(s.log)
    ensures id in s.tasks ==>
              && id in s.records
              && var e := Slot(id, s.records[id].generation);
              && multiset(s.ready)[e] + multiset(Slots(s.delayed))[e] == 1
              && (e in s.ready ==> Plain(s.log)[id] <= s.now)
              && (forall i | 0 <= i < |s.delayed| && s.delayed[i].slot == e :: s.delayed[i].due == Plain(s.log)[id])
  {
    ReachableInv(s);
    hide Plain, Reachable;
    if id in s.tasks {
      var e := Slot(id, s.records[id].generation);
      assert Pool(s)[e] == 1;
      assert Live(s, e);
      if e in s.ready {
        var i :| 0 <= i < |s.ready| && s.ready[i] == e;
        assert IsDue(s, s.ready[i]);
      }
      forall i | 0 <= i < |s.delayed| && s.delayed[i].slot == e ensures s.delayed[i].due == Plain(s.log)[id] {
        assert IsTimed(s, s.delayed[i]);
      }
    }
  }

  // ---------------------------------------------------------------------------
  // Safety over whole runs
  // ---------------------------------------------------------------------------

  /** A one-shot task runs at most once. */
  lemma OneShotRunsOnce(s: Sched, id: TaskId)
    requires Reachable(s) && id in s.records && !s.records[id].repeating
    ensures RunsOf(s.log, id) <= 1
  {
    ReachableInv(s);
  }

  /** At the moment it starts, a task is in the table and its due time, as the history tells it, has come. */
  lemma NeverEarly(s: Sched, j: nat)
    requires Reachable(s) && j < |s.log| && (s.log[j].Ran? || s.log[j].Rejected?)
    ensures s.log[j].id in Plain(s.log[..j]) && Plain(s.log[..j])[s.log[j].id] <= s.log[j].at
  {
    ReachableInv(s);
    assert Fits(s.log[..j], s.log[j]);
  }

  lemma {:induction false} PlainWasAdded(log: seq<Event>, id: TaskId)
    requires LogOk(log) && id in Plain(log)
    ensures exists i :: 0 <= i < |log| && log[i].Added? && log[i].id == id
  {
    var front := log[..|log| - 1];
    var ev := log[|log| - 1];
    assert Fits(log[..|log| - 1], ev);
    if !(ev.Added? && ev.id == id) {
      assert id in Plain(front);
      forall n | 0 <= n < |front| ensures Fits(front[..n], front[n]) {
        assert front[..n] == log[..n];
      }
      PlainWasAdded(front, id);
      var i :| 0 <= i < |front| && front[i].Added? && front[i].id == id;
      assert log[i] == front[i];
    } else {
      assert log[|log| - 1].Added?;
    }
  }

  lemma LogOkPrefix(log: seq<Event>, n: nat)
    requires LogOk(log) && n <= |log|
    ensures LogOk(log[..n])
  {
    forall k | 0 <= k < n ensures Fits(log[..n][..k], log[..n][k]) {
      assert log[..n][..k] == log[..k];
      assert Fits(log[..k], log[k]);
    }
  }

  /** A task that has left the plain view never comes back. */
  lemma {:induction false} RemovedStaysAway(log: seq<Event>, i: nat, n: nat, id: TaskId)
    requires LogOk(log) && i < n <= |log| && log[i].Removed? && id in log[i].ids && id in Plain(log[..i])
    ensures id !in Plain(log[..n])
  {
    assert log[..n][..n - 1] == log[..n - 1];
    if n == i + 1 {
    } else {
      RemovedStaysAway(log, i, n - 1, id);
      assert Fits(log[..n - 1], log[n - 1]);
      LogOkPrefix(log, i);
      PlainWasAdded(log[..i], id);
      var k :| 0 <= k < i && log[..i][k].Added? && log[..i][k].id == id;
      assert log[..n - 1][k] == log[..i][k];
    }
  }

  lemma {:induction false} LogGrows(s: Sched, actions: seq<Action>)
    requires RunFrom(s, actions).Some?
    ensures s.log <= RunFrom(s, actions).value.log
  {
    if actions != [] {
      var front := actions[..|actions| - 1];
      LogGrows(s, front);
      StepLogGrows(RunFrom(s, front).value, actions[|actions| - 1], RunFrom(s, actions).value);
    }
  }

  lemma StepLogGrows(s: Sched, a: Action, t: Sched)
    requires Step(s, a) == Some(t)
    ensures s.log <= t.log
  {
    hide NextDelay, ApplyJitter, PopsDue, LiveSlots;
  }

  /** After a successful cancel, by token or by group, no canceled task ever starts again. */
  lemma CancelIsFinal(s: Sched, ids: set<TaskId>, actions: seq<Action>, t: Sched, j: nat)
    requires Reachable(s) && !s.closed && ids <= s.tasks && RunFrom(Drop(s, ids), actions) == Some(t)
    requires |s.log| < j < |t.log| && (t.log[j].Ran? || t.log[j].Rejected?)
    ensures t.log[j].id !in ids
  {
    hide Reachable, PoolOk, TableOk, OnceOk, RunFrom, AllDue, AllTimed, Plain;
    var c := Drop(s, ids);
    ReachableInv(s);
    ThinKeeps(s, c, ids);
    RunKeepsInv(c, actions);
    LogGrows(c, actions);
    var i := |s.log|;
    assert t.log[i] == c.log[i] == Removed(ids);
    assert t.log[..i] == s.log;
    assert Fits(t.log[..j], t.log[j]);
    if t.log[j].id in ids { RemovedStaysAway(t.log, i, j, t.log[j].id); }
  }

  /**
   cancel(token) and cancel(group) succeed by dropping the task, and all members, from the table; an unknown token and
   group 0, which no task is in, change nothing.
   */
  lemma CancelDrops(s: Sched, id: TaskId, group: nat)
    requires Reachable(s) && !s.closed
    ensures id in s.tasks ==> DoCancel(s, id) == Drop(s, {id})
    ensures group != 0 ==>
              DoCancelGroup(s, group) == Drop(s, GroupMembers(s, group)) && GroupMembers(s, group) <= s.tasks
    ensures DoCancelGroup(s, 0) == s && (id !in s.tasks ==> DoCancel(s, id) == s)
  {
    ReachableInv(s);
  }

  lemma StepKeepsGroup(s: Sched, a: Action, t: Sched, id: TaskId)
    requires Inv(s) && Step(s, a) == Some(t) && id in s.records
    ensures id in t.records && t.records[id].group == s.records[id].group
  {
    hide HistoryOk, PoolOk, DueOk, NextDelay, ApplyJitter, PopsDue, LiveSlots;
  }

  lemma {:induction false} RunKeepsGroup(s: Sched, actions: seq<Action>, id: TaskId)
    requires Inv(s) && RunFrom(s, actions).Some? && id in s.records
    ensures id in RunFrom(s, actions).value.records
    ensures RunFrom(s, actions).value.records[id].group == s.records[id].group
  {
    hide Inv, Step;
    if actions != [] {
      var n := |actions| - 1;
      RunKeepsInv(s, actions[..n]);
      RunKeepsGroup(s, actions[..n], id);
      StepKeepsGroup(RunFrom(s, actions[..n]).value, actions[n], RunFrom(s, actions).value, id);
    }
  }

  /** The action schedules a task, once or repeatedly, in a group. */
  predicate SchedulesIn(a: Action, group: nat) {
    (a.Schedule? && a.group == group) || (a.ScheduleEvery? && a.group == group && a.policy.interval > 0)
  }

  /**
   However the run goes on, a one-shot or repeating task stays in the group it was scheduled with: a cancel of the group
   drops it exactly while it is in the table, and a cancel of any other group never does.
   */
  lemma GroupCancelReaches(s: Sched, a: Action, group: nat, u: Sched, actions: seq<Action>, t: Sched)
    requires Reachable(s) && !s.closed && SchedulesIn(a, group) && Step(s, a) == Some(u)
    requires RunFrom(u, actions) == Some(t)
    ensures forall other :: s.nextId in GroupMembers(t, other) <==> s.nextId in t.tasks && other == group
  {
    hide Reachable, Inv, RunFrom, Step;
    ReachableInv(s);
    StepKeeps(s, a, u);
    JoinsGroup(s, a, group, u);
    RunKeepsGroup(u, actions, s.nextId);
  }

  lemma JoinsGroup(s: Sched, a: Action, group: nat, u: Sched)
    requires !s.closed && SchedulesIn(a, group) && Step(s, a) == Some(u)
    ensures s.nextId in u.records && u.records[s.nextId].group == group
  {
    hide ApplyJitter;
  }

  // ---------------------------------------------------------------------------
  // A reschedule holds until the task's next selection or the next request
  // ---------------------------------------------------------------------------

  /** Event n selects the task or moves it on request. */
  predicate Replaces(ev: Event, id: TaskId) {
    (ev.Ran? && ev.id == id) || (ev.Rejected? && ev.id == id) || (ev.Moved? && ev.id == id && ev.requested)
  }

  ghost predicate Quiet(log: seq<Event>, i: nat, n: nat, id: TaskId)
    requires n <= |log|
  {
    forall k | i < k < n :: !Replaces(log[k], id)
  }

  /** While nothing replaced it, the new due time stands and the task is not running. */
  ghost predicate Standing(s: Sched, i: nat, id: TaskId, due: Time) {
    && i < |s.log|
    && (Quiet(s.log, i, |s.log|, id) ==>
          && (id in Plain(s.log) ==> Plain(s.log)[id] == due)
          && (s.running.Some? ==> s.running.value.id != id))
    && (forall j | i < j < |s.log| && (s.log[j].Ran? || s.log[j].Rejected?) && s.log[j].id == id ::
          Quiet(s.log, i, j, id) ==> s.log[j].at >= due)
  }

  lemma StandingSnoc(s: Sched, t: Sched, ev: Event, i: nat, id: TaskId, due: Time)
    requires LogOk(t.log) && Standing(s, i, id, due) && t.log == s.log + [ev] && id in s.records
    requires ev.Added? ==> ev.id != id
    requires ev.Moved? && ev.id == id ==> ev.requested || !Quiet(s.log, i, |s.log|, id)
    requires t.running.Some? ==> t.running == s.running || Replaces(ev, t.running.value.id)
    ensures Standing(t, i, id, due)
  {
    hide Plain, LogOk;
    LogSnoc(s.log, ev);
    assert t.log[..|s.log|] == s.log;
    if Quiet(t.log, i, |t.log|, id) {
      assert forall k | i < k < |s.log| :: t.log[k] == s.log[k];
      assert !Replaces(t.log[|s.log|], id);
    }
    forall j | i < j < |t.log| && (t.log[j].Ran? || t.log[j].Rejected?) && t.log[j].id == id && Quiet(t.log, i, j, id)
      ensures t.log[j].at >= due
    {
      assert forall k | i < k < j && k < |s.log| :: t.log[k] == s.log[k];
      if j == |s.log| {
        assert Quiet(s.log, i, |s.log|, id);
        FitsAt(t.log, j);
        assert t.log[..j] == s.log;
      } else {
        assert t.log[j] == s.log[j];
        assert Quiet(s.log, i, j, id);
      }
    }
  }

  lemma FitsAt(log: seq<Event>, j: nat)
    requires LogOk(log) && j < |log|
    ensures Fits(log[..j], log[j])
  {
  }

  lemma StandingSame(s: Sched, t: Sched, i: nat, id: TaskId, due: Time)
    requires Standing(s, i, id, due) && t.log == s.log && (t.running.None? || t.running == s.running)
    ensures Standing(t, i, id, due)
  {
    hide Plain;
  }

  lemma FinishStanding(s: Sched, stop: bool, draw: nat, t: Sched, i: nat, id: TaskId, due: Time)
    requires Inv(t) && Step(s, Finish(stop, draw)) == Some(t)
    requires Standing(s, i, id, due) && id in s.records
    ensures Standing(t, i, id, due)
  {
    hide Inv, Plain, LogOk, Quiet, Step;
    InvLog(t);
    FinishLog(s, stop, draw, t);
    if t.log == s.log { StandingSame(s, t, i, id, due); } else { StandingSnoc(s, t, t.log[|s.log|], i, id, due); }
  }

  lemma FinishLog(s: Sched, stop: bool, draw: nat, t: Sched)
    requires Step(s, Finish(stop, draw)) == Some(t)
    ensures s.running.Some? && t.running.None? && |s.log| <= |t.log| <= |s.log| + 1
    ensures t.log == s.log || (t.log == s.log + [t.log[|s.log|]]
                               && (t.log[|s.log|].Removed?
                                   || (t.log[|s.log|].Moved? && t.log[|s.log|].id == s.running.value.id)))
  {
    hide NextDelay;
  }

  lemma RejectStanding(s: Sched, draw: nat, t: Sched, i: nat, id: TaskId, due: Time)
    requires Inv(s) && Inv(t) && Step(s, Reject(draw)) == Some(t)
    requires Standing(s, i, id, due) && id in s.records
    ensures Standing(t, i, id, due)
  {
    hide Inv, Plain, LogOk, Quiet, Step;
    RejectLog(s, draw, t);
    InvLog(s);
    InvLog(t);
    var r := s.batch[0].id;
    var mid := s.(log := s.log + [Rejected(r, s.now)]);
    LogOkPrefix(t.log, |mid.log|);
    assert t.log[..|mid.log|] == mid.log;
    StandingSnoc(s, mid, Rejected(r, s.now), i, id, due);
    if r == id { NotQuiet(mid.log, i, |s.log|, id); }
    StandingSnoc(mid, t, t.log[|mid.log|], i, id, due);
  }

  lemma InvLog(s: Sched)
    requires Inv(s)
    ensures LogOk(s.log)
  {
  }

  lemma NotQuiet(log: seq<Event>, i: nat, k: nat, id: TaskId)
    requires i < k < |log| && Replaces(log[k], id)
    ensures !Quiet(log, i, |log|, id)
  {
  }

  lemma RejectLog(s: Sched, draw: nat, t: Sched)
    requires Step(s, Reject(draw)) == Some(t)
    ensures s.running.None? && s.batch != [] && |t.log| == |s.log| + 2 && t.running == s.running
    ensures t.log == s.log + [Rejected(s.batch[0].id, s.now)] + [t.log[|s.log| + 1]]
    ensures var ev := t.log[|s.log| + 1]; ev == Removed({s.batch[0].id}) || (ev.Moved? && ev.id == s.batch[0].id)
  {
    hide NextDelay;
  }

  lemma CallStanding(s: Sched, a: Action, t: Sched, i: nat, id: TaskId, due: Time)
    requires Inv(s) && Inv(t) && Step(s, a) == Some(t) && !a.Reject? && !a.Finish?
    requires Standing(s, i, id, due) && id in s.records
    ensures Standing(t, i, id, due)
  {
    hide Plain, LogOk, PoolOk, DueOk, OnceOk, NextDelay, ApplyJitter, LiveSlots, PopsDue, Standing;
    if t.log == s.log { StandingSame(s, t, i, id, due); }
    else { StandingSnoc(s, t, t.log[|s.log|], i, id, due); }
  }

  lemma StepStanding(s: Sched, a: Action, t: Sched, i: nat, id: TaskId, due: Time)
    requires Inv(s) && Step(s, a) == Some(t) && Standing(s, i, id, due) && id in s.records
    ensures Standing(t, i, id, due) && id in t.records
  {
    hide Step, Inv, Standing;
    StepKeeps(s, a, t);
    RecordsStay(s, a, t);
    if a.Reject? { RejectStanding(s, a.draw, t, i, id, due); }
    else if a.Finish? { FinishStanding(s, a.stop, a.draw, t, i, id, due); }
    else { CallStanding(s, a, t, i, id, due); }
  }

  lemma RecordsStay(s: Sched, a: Action, t: Sched)
    requires Step(s, a) == Some(t)
    ensures s.records.Keys <= t.records.Keys
  {
    hide NextDelay, ApplyJitter, PopsDue, LiveSlots;
  }

  lemma {:induction false} RunStanding(s: Sched, actions: seq<Action>, i: nat, id: TaskId, due: Time)
    requires Inv(s) && Standing(s, i, id, due) && id in s.records && RunFrom(s, actions).Some?
    ensures Standing(RunFrom(s, actions).value, i, id, due) && id in RunFrom(s, actions).value.records
  {
    hide Inv, Step, Standing;
    if actions != [] {
      var front := actions[..|actions| - 1];
      RunStanding(s, front, i, id, due);
      RunKeepsInv(s, front);
      StepStanding(RunFrom(s, front).value, actions[|actions| - 1], RunFrom(s, actions).value, i, id, due);
    }
  }

  /**
   A reschedule made while the task's own callback is not running forbids any start before the new due time, until
   the task has been selected again or another request moved it.
   */
  lemma RescheduleForbids(s: Sched, id: TaskId, delay: int, actions: seq<Action>, t: Sched, j: nat)
    requires Reachable(s) && !s.closed && id in s.tasks && (s.running.Some? ==> s.running.value.id != id)
    requires RunFrom(DoReschedule(s, id, delay), actions) == Some(t)
    requires |s.log| < j < |t.log| && (t.log[j].Ran? || t.log[j].Rejected?) && t.log[j].id == id
    requires Quiet(t.log, |s.log|, j, id)
    ensures t.log[j].at >= s.now + Positive(delay)
  {
    hide Inv, Reachable, Standing, Plain, Quiet;
    var r := DoReschedule(s, id, delay);
    ReachableInv(s);
    StepKeeps(s, Reschedule(id, delay), r);
    RescheduleStands(s, id, delay);
    StandingForbids(r, |s.log|, id, s.now + Positive(delay), actions, t, j);
  }

  /** A due time that stands forbids any start before it, however the run goes on, until it is replaced. */
  lemma StandingForbids(s: Sched, i: nat, id: TaskId, due: Time, actions: seq<Action>, t: Sched, j: nat)
    requires Inv(s) && Standing(s, i, id, due) && id in s.records && RunFrom(s, actions) == Some(t)
    requires i < j < |t.log| && (t.log[j].Ran? || t.log[j].Rejected?) && t.log[j].id == id && Quiet(t.log, i, j, id)
    ensures t.log[j].at >= due
  {
    hide Inv, Standing, Plain, Quiet;
    RunStanding(s, actions, i, id, due);
    StandingAt(t, i, id, due, j);
  }

  lemma StandingAt(s: Sched, i: nat, id: TaskId, due: Time, j: nat)
    requires Standing(s, i, id, due) && i < j < |s.log|
    requires (s.log[j].Ran? || s.log[j].Rejected?) && s.log[j].id == id && Quiet(s.log, i, j, id)
    ensures s.log[j].at >= due
  {
    hide Plain;
  }

  lemma RescheduleStands(s: Sched, id: TaskId, delay: int)
    requires Inv(s) && !s.closed && id in s.tasks && (s.running.Some? ==> s.running.value.id != id)
    ensures var r := DoReschedule(s, id, delay);
            Standing(r, |s.log|, id, s.now + Positive(delay)) && id in r.records
  {
    hide Plain, LogOk, PoolOk, DueOk, OnceOk;
    LogSnoc(s.log, Moved(id, s.now + Positive(delay), true));
  }

  // ---------------------------------------------------------------------------
  // When a task is due: after it is scheduled, given a new policy, and run or skipped
  // ---------------------------------------------------------------------------

  /** The step gives the task this due time, and nothing has replaced that yet. */
  ghost predicate GivesDue(u: Sched, id: TaskId, due: Time) {
    && u.log != [] && id in u.records && id in Plain(u.log) && Plain(u.log)[id] == due
    && (u.running.Some? ==> u.running.value.id != id)
  }

  lemma GivenStands(u: Sched, id: TaskId, due: Time)
    requires GivesDue(u, id, due)
    ensures Standing(u, |u.log| - 1, id, due)
  {
    hide Plain;
  }

  /** A due time that a step gives forbids any earlier start, until a selection or a request replaces it. */
  lemma GivenForbids(u: Sched, id: TaskId, due: Time, actions: seq<Action>, t: Sched, j: nat)
    requires Inv(u) && GivesDue(u, id, due) && RunFrom(u, actions) == Some(t)
    requires |u.log| <= j < |t.log| && (t.log[j].Ran? || t.log[j].Rejected?) && t.log[j].id == id
    requires Quiet(t.log, |u.log| - 1, j, id)
    ensures t.log[j].at >= due
  {
    hide Inv, Standing, Plain, Quiet;
    GivenStands(u, id, due);
    StandingForbids(u, |u.log| - 1, id, due, actions, t, j);
  }

  /** What the requests ask for: a delay below zero counts as none, and jitter adds its draw. */
  function DueAsked(now: Time, a: Action): Time {
    match a
    case Schedule(delay, _) => if delay > 0 then now + delay else now
    case ScheduleEvery(p, _, draw) => now + p.interval + if p.jitter > 0 then draw else 0
    case UpdatePolicy(_, p, draw) => now + p.interval + if p.jitter > 0 then draw else 0
    case _ => now
  }

  lemma RunningKnown(s: Sched)
    requires Inv(s) && !s.closed
    ensures s.nextId !in s.records && (s.running.Some? ==> s.running.value.id in s.records)
  {
    hide HistoryOk, DueOk;
  }

  lemma AddGives(s: Sched, rec: Record, delay: int)
    requires s.nextId !in s.records && (s.running.Some? ==> s.running.value.id in s.records)
    ensures var u := AddTask(s, rec, delay);
            GivesDue(u, s.nextId, s.now + Positive(delay)) && s.nextId in u.tasks && |u.log| == |s.log| + 1
  {
    hide Plain;
    LogSnoc(s.log, Added(s.nextId, s.now + Positive(delay)));
  }

  lemma ScheduleGives(s: Sched, a: Action, u: Sched)
    requires Inv(s) && !s.closed && Step(s, a) == Some(u)
    requires a.Schedule? || (a.ScheduleEvery? && a.policy.interval > 0)
    ensures GivesDue(u, s.nextId, DueAsked(s.now, a)) && s.nextId in u.tasks && |u.log| == |s.log| + 1
  {
    hide Inv, GivesDue, AddTask;
    RunningKnown(s);
    if a.Schedule? {
      AddGives(s, NewRecord(a.group, false, NO_POLICY, 0, 0), a.delay);
    } else {
      var delay := ApplyJitter(a.policy.interval, a.policy.jitter, a.draw);
      AddGives(s, NewRecord(a.group, true, a.policy, s.now + delay, delay), delay);
    }
  }

  /**
   A new task, one-shot or repeating, is due exactly its delay after it was scheduled, and in every continuation does
   not start before that unless a selection or a request has replaced it.
   */
  lemma ScheduleForbids(s: Sched, a: Action, u: Sched, actions: seq<Action>, t: Sched, j: nat)
    requires Reachable(s) && !s.closed && Step(s, a) == Some(u) && RunFrom(u, actions) == Some(t)
    requires a.Schedule? || (a.ScheduleEvery? && a.policy.interval > 0)
    ensures s.nextId in u.tasks && s.nextId in Plain(u.log) && Plain(u.log)[s.nextId] == DueAsked(s.now, a)
    ensures |s.log| < j < |t.log| && (t.log[j].Ran? || t.log[j].Rejected?) && t.log[j].id == s.nextId
            && Quiet(t.log, |s.log|, j, s.nextId)
            ==> t.log[j].at >= DueAsked(s.now, a)
  {
    hide Reachable, Inv, Step, Plain, Quiet, RunFrom, DueAsked;
    ReachableInv(s);
    StepKeeps(s, a, u);
    ScheduleGives(s, a, u);
    if |s.log| < j < |t.log| && (t.log[j].Ran? || t.log[j].Rejected?) && t.log[j].id == s.nextId
       && Quiet(t.log, |s.log|, j, s.nextId)
    {
      GivenForbids(u, s.nextId, DueAsked(s.now, a), actions, t, j);
    }
  }

  lemma UpdateGives(s: Sched, a: Action, u: Sched)
    requires Inv(s) && !s.closed && Step(s, a) == Some(u) && a.UpdatePolicy? && a.policy.interval > 0
    requires a.id in s.tasks && a.id in s.records && s.records[a.id].repeating
    requires s.running.Some? ==> s.running.value.id != a.id
    ensures GivesDue(u, a.id, DueAsked(s.now, a)) && u.records[a.id].policy == a.policy && |u.log| == |s.log| + 1
  {
    hide Inv, GivesDue, Requeue;
    InTable(s, a.id);
    var delay := ApplyJitter(a.policy.interval, a.policy.jitter, a.draw);
    RequeueGives(s, a.id, s.records[a.id].(policy := a.policy, interval := delay, lastDue := s.now + delay), delay);
  }

  lemma RequeueGives(s: Sched, id: TaskId, rec: Record, delay: int)
    requires id in s.records && (s.running.Some? ==> s.running.value.id != id)
    ensures var u := Requeue(s, id, rec, delay, true);
            GivesDue(u, id, s.now + Positive(delay)) && u.records[id].policy == rec.policy && |u.log| == |s.log| + 1
  {
    hide Plain;
    LogSnoc(s.log, Moved(id, s.now + Positive(delay), true));
  }

  lemma InTable(s: Sched, id: TaskId)
    requires Inv(s) && !s.closed && id in s.tasks
    ensures id != 0 && id in s.records && !s.records[id].canceled
  {
    hide HistoryOk, PoolOk, DueOk;
  }

  /** A new policy replaces the due time: the new interval, with jitter, counts from now. */
  lemma UpdateForbids(s: Sched, a: Action, u: Sched, actions: seq<Action>, t: Sched, j: nat)
    requires Reachable(s) && !s.closed && Step(s, a) == Some(u) && RunFrom(u, actions) == Some(t)
    requires a.UpdatePolicy? && a.policy.interval > 0 && a.id in s.tasks && a.id in s.records
    requires s.records[a.id].repeating && (s.running.Some? ==> s.running.value.id != a.id)
    requires |s.log| < j < |t.log| && (t.log[j].Ran? || t.log[j].Rejected?) && t.log[j].id == a.id
    requires Quiet(t.log, |s.log|, j, a.id)
    ensures t.log[j].at >= DueAsked(s.now, a)
  {
    hide Reachable, Inv, Step, Plain, Quiet, RunFrom, DueAsked;
    ReachableInv(s);
    StepKeeps(s, a, u);
    UpdateGives(s, a, u);
    GivenForbids(u, a.id, DueAsked(s.now, a), actions, t, j);
  }

  /** The task whose turn the step ends, after its callback or without one. */
  function Ended(s: Sched, a: Action): Option<TaskId> {
    if a.Finish? && s.running.Some? then Some(s.running.value.id)
    else if a.Reject? && s.batch != [] then Some(s.batch[0].id)
    else None
  }

  lemma RepeatGives(s: Sched, id: TaskId, rec: Record, draw: nat)
    requires id in s.records && s.running.None?
    ensures var u := Repeat(s, id, rec, draw);
            id in u.records && GivesDue(u, id, s.now + u.records[id].interval) && u.tasks == s.tasks
  {
    hide Plain, NextDelay;
    LogSnoc(s.log, Moved(id, s.now + NextDelay(rec.policy, rec.interval, draw), false));
  }

  lemma FinishGives(s: Sched, stop: bool, draw: nat)
    requires s.running.Some? && s.running.value.id in s.records
    requires var id := s.running.value.id; id in s.tasks <==> !s.records[id].canceled
    ensures var id, u := s.running.value.id, DoFinish(s, stop, draw);
            && (id in u.tasks <==> id in s.tasks && s.records[id].repeating && !stop)
            && (id in u.tasks ==> id in u.records && GivesDue(u, id, s.now + u.records[id].interval))
  {
    hide GivesDue, Repeat;
    var id := s.running.value.id;
    var rec, mid := s.records[id], s.(running := None);
    RepeatGives(mid, id, rec.(runs := rec.runs + 1), draw);
  }

  lemma RejectGives(s: Sched, draw: nat)
    requires s.batch != [] && s.batch[0].id in s.records && s.batch[0].id in s.tasks && s.running.None?
    ensures var id, u := s.batch[0].id, DoReject(s, draw);
            && (id in u.tasks <==> s.records[id].repeating)
            && (id in u.tasks ==> id in u.records && GivesDue(u, id, s.now + u.records[id].interval))
  {
    hide GivesDue, Repeat;
    var id := s.batch[0].id;
    var rec, mid := s.records[id], s.(batch := s.batch[1..], log := s.log + [Rejected(id, s.now)]);
    RepeatGives(mid, id, rec.(skips := rec.skips + 1), draw);
  }

  lemma EndGives(s: Sched, a: Action, u: Sched)
    requires Inv(s) && !s.closed && Step(s, a) == Some(u) && Ended(s, a).Some?
    ensures var id := Ended(s, a).value;
            && id in s.records
            && (id in u.tasks <==> id in s.tasks && s.records[id].repeating && !(a.Finish? && a.stop))
            && (id in u.tasks ==> id in u.records && GivesDue(u, id, s.now + u.records[id].interval))
  {
    hide Inv, GivesDue, DoFinish, DoReject;
    EndedKnown(s, a);
    if a.Finish? { FinishGives(s, a.stop, a.draw); } else { RejectGives(s, a.draw); }
  }

  lemma EndedKnown(s: Sched, a: Action)
    requires Inv(s) && !s.closed && Ended(s, a).Some? && Step(s, a).Some?
    ensures var id := Ended(s, a).value;
            id in s.records && (id in s.tasks <==> !s.records[id].canceled)
  {
    hide HistoryOk, PoolOk, DueOk, DoFinish, DoReject, HasTwin;
    RunningKnown(s);
  }

  /**
   After its turn a task stays exactly when it repeats, was not canceled meanwhile and did not ask to stop; it is then
   due its stored delay after that moment, and does not start earlier in any continuation.
   */
  lemma NextTurn(s: Sched, a: Action, u: Sched, actions: seq<Action>, t: Sched, j: nat)
    requires Reachable(s) && !s.closed && Step(s, a) == Some(u) && Ended(s, a).Some? && RunFrom(u, actions) == Some(t)
    ensures var id := Ended(s, a).value;
            && id in s.records
            && (id in u.tasks <==> id in s.tasks && s.records[id].repeating && !(a.Finish? && a.stop))
            && (id in u.tasks ==> && id in u.records && id in Plain(u.log)
                                  && Plain(u.log)[id] == s.now + u.records[id].interval)
            && (id in u.tasks && |u.log| <= j < |t.log| && (t.log[j].Ran? || t.log[j].Rejected?) && t.log[j].id == id
                && u.log != [] && Quiet(t.log, |u.log| - 1, j, id)
                ==> t.log[j].at >= s.now + u.records[id].interval)
  {
    hide Reachable, Inv, Step, Plain, Quiet, RunFrom;
    ReachableInv(s);
    StepKeeps(s, a, u);
    EndGives(s, a, u);
    var id := Ended(s, a).value;
    if id in u.tasks && |u.log| <= j < |t.log| && (t.log[j].Ran? || t.log[j].Rejected?) && t.log[j].id == id
       && u.log != [] && Quiet(t.log, |u.log| - 1, j, id)
    {
      GivenForbids(u, id, s.now + u.records[id].interval, actions, t, j);
    }
  }

  /**
   A request on a repeating task also sets the stored delay from which its backoff goes on: to the delay asked for, or
   to the new policy's interval with its jitter.
   */
  lemma StoredDelay(s: Sched, a: Action, u: Sched)
    requires Reachable(s) && !s.closed && Step(s, a) == Some(u)
    requires a.Reschedule? || (a.UpdatePolicy? && a.policy.interval > 0)
    requires a.id in s.tasks && a.id in s.records && s.records[a.id].repeating
    ensures a.id in u.records && u.records[a.id].repeating
    ensures a.Reschedule? ==> u.records[a.id].interval == (if a.delay > 0 then a.delay else 0)
                              && u.records[a.id].policy == s.records[a.id].policy
    ensures a.UpdatePolicy? ==> s.now + u.records[a.id].interval == DueAsked(s.now, a)
                                && u.records[a.id].policy == a.policy
    ensures u.records[a.id].runs == s.records[a.id].runs && u.records[a.id].skips == s.records[a.id].skips
  {
    hide Reachable, Inv;
    ReachableInv(s);
    InTable(s, a.id);
  }
}
