/**
 The scheduler's own methods. Each call is proved to be the operation of the same name of the state machine, and a
 poll, with callbacks that make any calls they like, to be one of its runs.
 */
module TaskScheduler {
  import opened Options
  import opened RepeatBackoff
  import opened SchedulerModel
  import opened SchedulerProofs
  import opened SchedulerTheorems

  function TotalRuns(log: seq<Event>): nat {
    if log == [] then 0 else TotalRuns(log[..|log| - 1]) + if log[|log| - 1].Ran? then 1 else 0
  }

  lemma TotalRunsSnoc(log: seq<Event>, ev: Event)
    ensures TotalRuns(log + [ev]) == TotalRuns(log) + if ev.Ran? then 1 else 0
  {
    assert (log + [ev])[..|log|] == log;
  }

  class TaskScheduler {
    var now: Time
    var closed: bool
    var records: map<TaskId, Record>
    var tasks: set<TaskId>
    var ready: seq<Slot>
    var delayed: seq<Timed>
    var nextId: TaskId
    ghost var batch: seq<Slot>
    ghost var running: Option<Slot>
    ghost var log: seq<Event>
    ghost var trace: seq<Action>

    ghost function State(): Sched
      reads this
    {
      Sched(now, closed, records, tasks, ready, delayed, nextId, batch, running, log)
    }

    ghost predicate Valid()
      reads this
    {
      RunFrom(EMPTY, trace) == Some(State())
    }

    constructor ()
      ensures Valid() && State() == EMPTY
    {
      now, closed, records, tasks, ready, delayed, nextId := 0, false, map[], {}, [], [], 1;
      batch, running, log, trace := [], None, [], [];
    }

    /** Record that the last change of the fields was this step. */
    ghost method Note(before: Sched, a: Action)
      requires RunFrom(EMPTY, trace) == Some(before) && Step(before, a) == Some(State())
      modifies `trace
      ensures Valid() && State() == old(State())
    {
      hide Step;
      assert (trace + [a])[..|trace|] == trace;
      trace := trace + [a];
    }

    /** Valid states are the reachable ones. */
    lemma ValidInv()
      requires Valid()
      ensures Inv(State())
    {
      hide Inv, RunFrom;
      assert Reachable(State());
      ReachableInv(State());
    }

    /** Time passes. */
    method Advance()
      requires Valid()
      modifies `now, `trace
      ensures Valid() && State() == old(State()).(now := now)
      ensures now >= old(now)
    {
      hide RunFrom;
      ghost var s := State();
      var d: nat :| d >= 0;
      now := now + d;
      Note(s, Tick(d));
    }

    method PushSlot(e: Slot, delay: int)
      modifies `ready, `delayed
      ensures State() == Enqueue(old(State()), e, delay)
    {
      if delay <= 0 { ready := ready + [e]; } else { delayed := delayed + [Timed(now + delay, e)]; }
    }

    method ScheduleControlled(hasTask: bool, delay: int, group: nat) returns (id: TaskId)
      requires Valid()
      modifies this
      ensures Valid() && (id == 0 <==> !hasTask || old(closed))
      ensures State() == if hasTask then DoSchedule(old(State()), delay, group) else old(State())
      ensures id != 0 ==> id == old(nextId) && id in tasks
    {
      hide RunFrom, Inv;
      ValidInv();
      if !hasTask || closed { return 0; }
      ghost var s := State();
      var rec := NewRecord(group, false, NO_POLICY, 0, 0);
      id := nextId;
      IdPositive(s);
      nextId := nextId + 1;
      records := records[id := rec];
      tasks := tasks + {id};
      log := log + [Added(id, now + Positive(delay))];
      PushSlot(Slot(id, rec.generation), delay);
      Note(s, Schedule(delay, group));
    }

    method ScheduleEveryControlled(hasTask: bool, policy: Policy, group: nat) returns (id: TaskId, ghost draw: nat)
      requires Valid()
      modifies this
      ensures Valid() && IsDraw(policy, draw) && (id == 0 <==> !hasTask || old(closed) || policy.interval <= 0)
      ensures State() == if hasTask then DoScheduleEvery(old(State()), policy, group, draw) else old(State())
      ensures id != 0 ==> id == old(nextId) && id in tasks
    {
      hide RunFrom, Inv;
      ValidInv();
      draw := 0;
      if !hasTask || policy.interval <= 0 || closed { return 0, 0; }
      ghost var s := State();
      var jitter: nat :| IsDraw(policy, jitter);
      draw := jitter;
      var delay := ApplyJitter(policy.interval, policy.jitter, jitter);
      var rec := NewRecord(group, true, policy, now + delay, delay);
      id := nextId;
      IdPositive(s);
      nextId := nextId + 1;
      records := records[id := rec];
      tasks := tasks + {id};
      log := log + [Added(id, now + Positive(delay))];
      delayed := delayed + [Timed(now + delay, Slot(id, rec.generation))];
      Note(s, ScheduleEvery(policy, group, jitter));
    }

    method CancelToken(id: TaskId) returns (ok: bool)
      requires Valid()
      modifies this
      ensures Valid() && State() == DoCancel(old(State()), id)
      ensures ok <==> id != 0 && !old(closed) && id in old(tasks)
    {
      hide RunFrom, Inv;
      ValidInv();
      if id == 0 || closed || id !in tasks { return false; }
      ghost var s := State();
      TaskHasRecord(s, id);
      records := records[id := records[id].(canceled := true, generation := records[id].generation + 1)];
      tasks := tasks - {id};
      log := log + [Removed({id})];
      assert records == Drop(s, {id}).records;
      Note(s, Cancel(id));
      ok := true;
    }

    /** Walk the table and mark every member of the group. */
    method MarkGroup(group: nat) returns (hit: set<TaskId>, canceled: nat)
      requires tasks <= records.Keys
      modifies `records, `tasks
      ensures hit == GroupMembers(old(State()), group) && canceled == |hit|
      ensures records == Drop(old(State()), hit).records && tasks == old(tasks) - hit
    {
      var todo := tasks;
      hit, canceled := {}, 0;
      while todo != {}
        invariant todo <= old(tasks) && hit <= old(tasks) - todo && canceled == |hit|
        invariant forall id | id in old(tasks) - todo :: id in hit <==> old(records)[id].group == group
        invariant tasks == old(tasks) - hit && records.Keys == old(records).Keys
        invariant forall id | id in records :: records[id] == Mark(old(records)[id], id in hit)
        decreases todo
      {
        var id :| id in todo;
        todo := todo - {id};
        if records[id].group == group {
          records := records[id := records[id].(canceled := true, generation := records[id].generation + 1)];
          tasks := tasks - {id};
          hit := hit + {id};
          canceled := canceled + 1;
        }
      }
      MarkedIsDropped(old(State()), hit, records);
    }

    method CancelGroupOf(group: nat) returns (canceled: nat)
      requires Valid()
      modifies this
      ensures Valid() && State() == DoCancelGroup(old(State()), group)
      ensures canceled == if group == 0 || old(closed) then 0 else |GroupMembers(old(State()), group)|
    {
      hide RunFrom, Inv, GroupMembers;
      ValidInv();
      canceled := 0;
      if group == 0 || closed { return; }
      ghost var s := State();
      TasksHaveRecords(s);
      var hit;
      hit, canceled := MarkGroup(group);
      log := log + [Removed(hit)];
      Note(s, CancelGroup(group));
    }

    method RescheduleTask(id: TaskId, delay: int) returns (ok: bool)
      requires Valid()
      modifies this
      ensures Valid() && State() == DoReschedule(old(State()), id, delay)
      ensures ok <==> id != 0 && !old(closed) && id in old(tasks)
    {
      hide RunFrom, Inv;
      ValidInv();
      if id == 0 || closed || id !in tasks { return false; }
      ghost var s := State();
      TaskHasRecord(s, id);
      var rec := records[id].(generation := records[id].generation + 1);
      if rec.repeating {
        rec := rec.(interval := Positive(delay), lastDue := now + Positive(delay));
      }
      records := records[id := rec];
      log := log + [Moved(id, now + Positive(delay), true)];
      PushSlot(Slot(id, rec.generation), delay);
      Note(s, Reschedule(id, delay));
      ok := true;
    }

    method UpdateRepeatPolicy(id: TaskId, policy: Policy) returns (ok: bool, ghost draw: nat)
      requires Valid()
      modifies this
      ensures Valid() && IsDraw(policy, draw) && State() == DoUpdatePolicy(old(State()), id, policy, draw)
      ensures ok <==> id != 0 && policy.interval > 0 && !old(closed) && id in old(tasks) && id in old(records)
                      && old(records)[id].repeating
    {
      hide RunFrom, Inv;
      ValidInv();
      draw := 0;
      if id == 0 || policy.interval <= 0 || closed || id !in tasks { return false, 0; }
      ghost var s := State();
      TaskHasRecord(s, id);
      if !records[id].repeating { return false, 0; }
      var jitter: nat :| IsDraw(policy, jitter);
      draw := jitter;
      var delay := ApplyJitter(policy.interval, policy.jitter, jitter);
      var gen := records[id].generation + 1;
      var rec := records[id].(policy := policy, generation := gen, interval := delay, lastDue := now + delay);
      records := records[id := rec];
      log := log + [Moved(id, now + Positive(delay), true)];
      delayed := delayed + [Timed(now + delay, Slot(id, gen))];
      Note(s, UpdatePolicy(id, policy, jitter));
      ok := true;
    }

    method ShutdownAll()
      requires Valid()
      modifies this
      ensures Valid() && State() == DoShutdown(old(State()))
    {
      hide RunFrom;
      if closed { return; }
      ghost var s := State();
      closed, tasks, ready, delayed := true, {}, [], [];
      Note(s, Shutdown);
    }

    /** Index of an earliest entry: the top of the delayed queue. */
    method TopOfDelayed() returns (k: nat)
      requires delayed != []
      ensures k < |delayed| && forall i | 0 <= i < |delayed| :: delayed[k].due <= delayed[i].due
    {
      k := 0;
      for i := 1 to |delayed|
        invariant k < i && forall j | 0 <= j < i :: delayed[k].due <= delayed[j].due
      {
        if delayed[i].due < delayed[k].due { k := i; }
      }
    }

    /** Pop every due entry of the delayed queue; the current ones join the ready queue in due order. */
    method PromoteDue(ghost s: Sched) returns (ghost due: seq<Timed>)
      requires State() == s
      modifies `ready, `delayed
      ensures PopsDue(s, due, delayed)
      ensures State() == s.(ready := s.ready + LiveSlots(s, Slots(due)), delayed := delayed)
    {
      hide Popping, PopsDue, LiveSlots;
      due := [];
      StartPopping(s);
      while delayed != []
        invariant Popping(s, due, delayed)
        invariant State() == s.(ready := s.ready + LiveSlots(s, Slots(due)), delayed := delayed)
        decreases |delayed|
      {
        var k := TopOfDelayed();
        var top := delayed[k];
        if top.due > now { break; }
        PopOne(s, due, delayed, k);
        delayed := delayed[..k] + delayed[k + 1..];
        var id := top.slot.id;
        if id in records && !records[id].canceled && records[id].generation == top.slot.generation {
          ready := ready + [top.slot];
        }
        due := due + [top];
      }
      DonePopping(s, due, delayed);
    }

    /** Move entries from the front of the ready queue while there is room. */
    method TakeReady(max: Option<nat>) returns (out: seq<Slot>)
      modifies `ready
      ensures out + ready == old(ready) && |out| == Take(max, |old(ready)|)
    {
      out := [];
      while ready != [] && (max.None? || |out| < max.value)
        invariant out + ready == old(ready) && (max.Some? ==> |out| <= max.value)
        decreases |ready|
      {
        out := out + [ready[0]];
        ready := ready[1..];
      }
    }

    method CollectReady(max: Option<nat>) returns (out: seq<Slot>)
      requires Valid() && BetweenPolls(State()) && !closed
      modifies `ready, `delayed, `batch, `trace
      ensures Valid() && batch == out && State() == old(State()).(ready := ready, delayed := delayed, batch := out)
      ensures exists due :: PopsDue(old(State()), due, delayed) && State() == DoCollect(old(State()), due, delayed, max)
    {
      hide RunFrom, LiveSlots, PopsDue, DoCollect;
      ghost var s := State();
      ghost var due := PromoteDue(s);
      out := TakeReady(max);
      FrontAndRest(s, due, delayed, max, out, ready);
      batch := out;
      assert State() == DoCollect(s, due, delayed, max);
      Note(s, Collect(due, delayed, max));
    }

    /** A task's callback: any calls in any order, taking any time, then its decision. */
    method Callback() returns (stop: bool)
      requires Valid()
      modifies this
      ensures Valid() && batch == old(batch) && running == old(running)
      ensures old(records).Keys <= records.Keys && TotalRuns(log) == TotalRuns(old(log))
    {
      hide RunFrom, TotalRuns;
      var steps: nat := *;
      while steps > 0
        invariant Valid() && batch == old(batch) && running == old(running)
        invariant old(records).Keys <= records.Keys && TotalRuns(log) == TotalRuns(old(log))
      {
        AnyCall();
        steps := steps - 1;
      }
      stop := *;
    }

    method AnyCall()
      requires Valid()
      modifies this
      ensures Valid() && batch == old(batch) && running == old(running)
      ensures old(records).Keys <= records.Keys && TotalRuns(log) == TotalRuns(old(log))
    {
      hide RunFrom, TotalRuns, ApplyJitter;
      var which: nat, id: TaskId, group: nat :| which >= 0 && id >= 0 && group >= 0;
      var delay: int, policy: Policy := *, *;
      Advance();
      ghost var was := log;
      match which {
        case 0 => var _ := ScheduleControlled(true, delay, group);
        case 1 => var _, _ := ScheduleEveryControlled(true, policy, group);
        case 2 => var _ := CancelToken(id);
        case 3 => var _ := CancelGroupOf(group);
        case 4 => var _ := RescheduleTask(id, delay);
        case 5 => var _, _ := UpdateRepeatPolicy(id, policy);
        case 6 => ShutdownAll();
        case _ =>
      }
      if log != was { TotalRunsSnoc(was, log[|was|]); }
    }

    /** Take the task out of the table for good. */
    method RetireTask(id: TaskId)
      requires id in records
      modifies `records, `tasks, `log
      ensures State() == Retire(old(State()), id)
    {
      tasks := tasks - {id};
      records := records[id := records[id].(canceled := true)];
      log := log + [Removed({id})];
    }

    /** Queue the next run of a repeating task. */
    method RepeatTask(id: TaskId, rec: Record) returns (ghost draw: nat)
      requires id in records
      modifies `records, `delayed, `log
      ensures IsDraw(rec.policy, draw) && State() == Repeat(old(State()), id, rec, draw)
    {
      var jitter: nat :| IsDraw(rec.policy, jitter);
      draw := jitter;
      var delay := NextDelay(rec.policy, rec.interval, jitter);
      var gen := records[id].generation + 1;
      records := records[id := rec.(generation := gen, interval := delay, lastDue := now + delay)];
      log := log + [Moved(id, now + delay, false)];
      delayed := delayed + [Timed(now + delay, Slot(id, gen))];
    }

    /** The validator refused entry e, the head of the batch. */
    method RejectEntry(e: Slot)
      requires Valid() && running.None? && batch != [] && batch[0] == e && Live(State(), e)
      modifies this
      ensures Valid() && running.None? && batch == old(batch)[1..]
      ensures TotalRuns(log) == TotalRuns(old(log))
    {
      hide RunFrom, TotalRuns, NextDelay;
      ghost var s := State();
      batch := batch[1..];
      log := log + [Rejected(e.id, now)];
      TotalRunsSnoc(s.log, log[|s.log|]);
      ghost var draw := 0;
      ghost var mid := log;
      var rec := records[e.id];
      if !rec.repeating { RetireTask(e.id); }
      else { draw := RepeatTask(e.id, rec.(skips := rec.skips + 1)); }
      TotalRunsSnoc(mid, log[|mid|]);
      assert log == mid + [log[|mid|]];
      Note(s, Reject(draw));
    }

    /** Run entry e, the head of the batch: its callback, then its retirement or its next run. */
    method RunEntry(e: Slot)
      requires Valid() && running.None? && batch != [] && batch[0] == e && Live(State(), e)
      modifies this
      ensures Valid() && running.None? && batch == old(batch)[1..]
      ensures TotalRuns(log) == TotalRuns(old(log)) + 1
    {
      hide RunFrom, TotalRuns, NextDelay;
      ghost var s := State();
      batch := batch[1..];
      running := Some(e);
      log := log + [Ran(e.id, now)];
      TotalRunsSnoc(s.log, Ran(e.id, now));
      Note(s, Run);
      var stop := Callback();
      Advance();
      FinishEntry(e, stop);
    }

    method FinishEntry(e: Slot, stop: bool)
      requires Valid() && running == Some(e) && e.id in records
      modifies this
      ensures Valid() && running.None? && batch == old(batch)
      ensures TotalRuns(log) == TotalRuns(old(log))
    {
      hide RunFrom, TotalRuns, NextDelay;
      ghost var s := State();
      running := None;
      ghost var draw := 0;
      var rec := records[e.id];
      if !rec.repeating || stop { RetireTask(e.id); }
      else if !rec.canceled { draw := RepeatTask(e.id, rec.(runs := rec.runs + 1)); }
      if log != s.log { TotalRunsSnoc(s.log, log[|s.log|]); }
      Note(s, Finish(stop, draw));
    }

    /** Run what is due, at most max entries of it; the result is the number of callbacks run. */
    method Poll(max: Option<nat>) returns (executed: nat)
      requires Valid() && BetweenPolls(State())
      modifies this
      ensures Valid() && BetweenPolls(State())
      ensures executed == TotalRuns(log) - TotalRuns(old(log))
      ensures old(closed) ==> State() == old(State())
    {
      hide RunFrom, TotalRuns;
      executed := 0;
      if closed { return; }
      Advance();
      var out := CollectReady(max);
      for i := 0 to |out|
        invariant Valid() && running.None? && batch == out[i..]
        invariant executed == TotalRuns(log) - TotalRuns(old(log))
      {
        var e := out[i];
        assert batch[0] == e && batch[1..] == out[i + 1..];
        Advance();
        if e.id in records && !records[e.id].canceled && records[e.id].generation == e.generation {
          var refused: bool := *;
          if refused {
            RejectEntry(e);
          } else {
            RunEntry(e);
            executed := executed + 1;
          }
        } else {
          ghost var s := State();
          batch := batch[1..];
          Note(s, Skip);
        }
      }
    }
  }

  lemma IdPositive(s: Sched)
    requires Inv(s) && !s.closed
    ensures s.nextId >= 1
  {
  }

  lemma TaskHasRecord(s: Sched, id: TaskId)
    requires Inv(s) && id in s.tasks
    ensures id in s.records && !s.records[id].canceled && !s.closed
  {
  }

  lemma TasksHaveRecords(s: Sched)
    requires Inv(s)
    ensures s.tasks <= s.records.Keys
  {
  }

  lemma PopSplit(ts: seq<Timed>, k: nat)
    requires k < |ts|
    ensures multiset(ts) == multiset(ts[..k] + ts[k + 1..]) + multiset{ts[k]}
  {
    assert ts == ts[..k] + [ts[k]] + ts[k + 1..];
  }

  lemma LiveSlotsSnoc(s: Sched, due: seq<Timed>, t: Timed)
    ensures LiveSlots(s, Slots(due + [t])) == LiveSlots(s, Slots(due)) + if Live(s, t.slot) then [t.slot] else []
  {
    SlotsSnoc(due, t);
    var es := Slots(due) + [t.slot];
    assert es[..|es| - 1] == Slots(due);
  }

  function Mark(rec: Record, hit: bool): Record {
    if hit then rec.(canceled := true, generation := rec.generation + 1) else rec
  }

  lemma MarkedIsDropped(s: Sched, hit: set<TaskId>, records: map<TaskId, Record>)
    requires records.Keys == s.records.Keys
    requires forall id | id in records :: records[id] == Mark(s.records[id], id in hit)
    ensures records == Drop(s, hit).records
  {
  }

  lemma FrontAndRest(s: Sched, due: seq<Timed>, rest: seq<Timed>, max: Option<nat>, out: seq<Slot>, left: seq<Slot>)
    requires s.batch == [] && out + left == s.ready + LiveSlots(s, Slots(due)) && |out| == Take(max, |out + left|)
    ensures DoCollect(s, due, rest, max) == s.(ready := left, delayed := rest, batch := out)
  {
    hide LiveSlots;
    assert out == (out + left)[..|out|] && left == (out + left)[|out|..];
    assert s.batch + out == out;
  }

  /** The delayed queue half way through popping what is due. */
  ghost predicate Popping(s: Sched, due: seq<Timed>, rest: seq<Timed>) {
    && multiset(due) + multiset(rest) == multiset(s.delayed)
    && (forall i | 0 <= i < |due| :: due[i].due <= s.now)
    && (forall i, j | 0 <= i < j < |due| :: due[i].due <= due[j].due)
    && (forall i, t | 0 <= i < |due| && t in multiset(rest) :: due[i].due <= t.due)
  }

  lemma StartPopping(s: Sched)
    ensures Popping(s, [], s.delayed) && LiveSlots(s, Slots([])) == []
  {
    assert Slots([]) == [];
  }

  lemma PopOne(s: Sched, due: seq<Timed>, rest: seq<Timed>, k: nat)
    requires Popping(s, due, rest) && k < |rest| && rest[k].due <= s.now
    requires forall i | 0 <= i < |rest| :: rest[k].due <= rest[i].due
    ensures Popping(s, due + [rest[k]], rest[..k] + rest[k + 1..])
    ensures LiveSlots(s, Slots(due + [rest[k]]))
            == LiveSlots(s, Slots(due)) + if Live(s, rest[k].slot) then [rest[k].slot] else []
  {
    hide LiveSlots, Slots, Live;
    LiveSlotsSnoc(s, due, rest[k]);
    PopSplit(rest, k);
    var left, more := rest[..k] + rest[k + 1..], due + [rest[k]];
    assert multiset(more) == multiset(due) + multiset{rest[k]};
    assert rest[k] in multiset(rest);
    LeftLater(rest, k);
  }

  lemma LeftLater(rest: seq<Timed>, k: nat)
    requires k < |rest| && forall i | 0 <= i < |rest| :: rest[k].due <= rest[i].due
    ensures forall t | t in multiset(rest[..k] + rest[k + 1..]) :: t in multiset(rest) && rest[k].due <= t.due
  {
    forall t | t in multiset(rest[..k] + rest[k + 1..]) ensures t in multiset(rest) && rest[k].due <= t.due {
      assert t in rest;
    }
  }

  lemma DonePopping(s: Sched, due: seq<Timed>, rest: seq<Timed>)
    requires Popping(s, due, rest) && forall i | 0 <= i < |rest| :: rest[i].due > s.now
    ensures PopsDue(s, due, rest)
  {
  }
}
