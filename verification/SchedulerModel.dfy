/**
 The task scheduler as a state machine. Records outlive their removal from the task table, as the shared pointers in
 stale queue entries keep them alive; a queue entry therefore names its record by task id. The log is history only:
 it is written, never read, by the operations.
 */
module SchedulerModel {
  import opened Options
  import opened RepeatBackoff

  type TaskId = nat
  type Time = int

  datatype Record = Record(
    group: nat, repeating: bool, canceled: bool, generation: nat,
    policy: Policy, runs: nat, skips: nat, lastDue: Time, interval: int)

  /** A queue entry: the task and the generation it was queued for. */
  datatype Slot = Slot(id: TaskId, generation: nat)

  /** An entry of the delayed queue. */
  datatype Timed = Timed(due: Time, slot: Slot)

  datatype Event =
    | Added(id: TaskId, due: Time)
    | Moved(id: TaskId, due: Time, requested: bool)
    | Removed(ids: set<TaskId>)
    | Ran(id: TaskId, at: Time)
    | Rejected(id: TaskId, at: Time)

  /**
   batch and running belong to a poll in progress: entries collected but not yet handled, and the entry whose callback
   runs.
   */
  datatype Sched = Sched(
    now: Time, closed: bool, records: map<TaskId, Record>, tasks: set<TaskId>,
    ready: seq<Slot>, delayed: seq<Timed>, nextId: TaskId,
    batch: seq<Slot>, running: Option<Slot>, log: seq<Event>)

  const EMPTY := Sched(0, false, map[], {}, [], [], 1, [], None, [])

  /** The check made on every entry before it is used. */
  predicate Live(s: Sched, e: Slot) {
    e.id in s.records && !s.records[e.id].canceled && e.generation == s.records[e.id].generation
  }

  predicate BetweenPolls(s: Sched) {
    s.batch == [] && s.running.None?
  }

  // ---------------------------------------------------------------------------
  // Operations
  // ---------------------------------------------------------------------------

  function Enqueue(s: Sched, e: Slot, delay: int): Sched {
    if delay <= 0 then s.(ready := s.ready + [e]) else s.(delayed := s.delayed + [Timed(s.now + delay, e)])
  }

  function NewRecord(group: nat, repeating: bool, policy: Policy, due: Time, interval: int): Record {
    Record(group, repeating, false, 0, policy, 0, 0, due, interval)
  }

  const NO_POLICY := Policy(0, 0, 1.0, 0)

  function AddTask(s: Sched, rec: Record, delay: int): Sched {
    Enqueue(s.(records := s.records[s.nextId := rec], tasks := s.tasks + {s.nextId}, nextId := s.nextId + 1,
               log := s.log + [Added(s.nextId, s.now + Positive(delay))]),
            Slot(s.nextId, rec.generation), delay)
  }

  function DoSchedule(s: Sched, delay: int, group: nat): Sched {
    if s.closed then s else AddTask(s, NewRecord(group, false, NO_POLICY, 0, 0), delay)
  }

  function DoScheduleEvery(s: Sched, policy: Policy, group: nat, draw: nat): Sched {
    if s.closed || policy.interval <= 0 then s else
      var delay := ApplyJitter(policy.interval, policy.jitter, draw);
      AddTask(s, NewRecord(group, true, policy, s.now + delay, delay), delay)
  }

  /** Mark records canceled and take their ids out of the table. */
  function Drop(s: Sched, ids: set<TaskId>): Sched {
    s.(records := map id | id in s.records ::
                    if id in ids then s.records[id].(canceled := true, generation := s.records[id].generation + 1)
                    else s.records[id],
       tasks := s.tasks - ids, log := s.log + [Removed(ids)])
  }

  function DoCancel(s: Sched, id: TaskId): Sched {
    if id == 0 || s.closed || id !in s.tasks then s else Drop(s, {id})
  }

  function GroupMembers(s: Sched, group: nat): set<TaskId> {
    set id | id in s.tasks && id in s.records && s.records[id].group == group
  }

  function DoCancelGroup(s: Sched, group: nat): Sched {
    if group == 0 || s.closed then s else Drop(s, GroupMembers(s, group))
  }

  /** Give a live task a new generation and queue it again. */
  function Requeue(s: Sched, id: TaskId, rec: Record, delay: int, requested: bool): Sched
    requires id in s.records
  {
    var gen := s.records[id].generation + 1;
    Enqueue(s.(records := s.records[id := rec.(generation := gen)],
               log := s.log + [Moved(id, s.now + Positive(delay), requested)]),
            Slot(id, gen), delay)
  }

  function DoReschedule(s: Sched, id: TaskId, delay: int): Sched {
    if id == 0 || s.closed || id !in s.tasks || id !in s.records || s.records[id].canceled then s else
      var rec := s.records[id];
      var moved := rec.(interval := Positive(delay), lastDue := s.now + Positive(delay));
      Requeue(s, id, if rec.repeating then moved else rec, delay, true)
  }

  function DoUpdatePolicy(s: Sched, id: TaskId, policy: Policy, draw: nat): Sched {
    if id == 0 || policy.interval <= 0 || s.closed || id !in s.tasks || id !in s.records
       || !s.records[id].repeating || s.records[id].canceled then s
    else
      var delay := ApplyJitter(policy.interval, policy.jitter, draw);
      Requeue(s, id, s.records[id].(policy := policy, interval := delay, lastDue := s.now + delay), delay, true)
  }

  /** shutdown clears the table and both queues; it does not touch the records, nor a batch already collected. */
  function DoShutdown(s: Sched): Sched {
    if s.closed then s else s.(closed := true, tasks := {}, ready := [], delayed := [])
  }

  // ---------------------------------------------------------------------------
  // Polling
  // ---------------------------------------------------------------------------

  function Slots(ts: seq<Timed>): seq<Slot> {
    seq(|ts|, i requires 0 <= i < |ts| => ts[i].slot)
  }

  function LiveSlots(s: Sched, es: seq<Slot>): seq<Slot> {
    if es == [] then [] else LiveSlots(s, es[..|es| - 1]) + if Live(s, es[|es| - 1]) then [es[|es| - 1]] else []
  }

  /** due is what the delayed queue pops, in due order, while its earliest entry is due; rest is what it keeps. */
  ghost predicate PopsDue(s: Sched, due: seq<Timed>, rest: seq<Timed>) {
    && multiset(due) + multiset(rest) == multiset(s.delayed)
    && (forall i | 0 <= i < |due| :: due[i].due <= s.now)
    && (forall i, j | 0 <= i < j < |due| :: due[i].due <= due[j].due)
    && (forall i | 0 <= i < |rest| :: rest[i].due > s.now)
  }

  function Take(max: Option<nat>, n: nat): (k: nat)
    ensures k <= n
  {
    if max.None? || n <= max.value then n else max.value
  }

  function DoCollect(s: Sched, due: seq<Timed>, rest: seq<Timed>, max: Option<nat>): Sched {
    var all := s.ready + LiveSlots(s, Slots(due));
    var k := Take(max, |all|);
    s.(delayed := rest, ready := all[k..], batch := s.batch + all[..k])
  }

  /** The task is finished: out of the table and marked, its generation kept. */
  function Retire(s: Sched, id: TaskId): Sched
    requires id in s.records
  {
    s.(records := s.records[id := s.records[id].(canceled := true)], tasks := s.tasks - {id},
      log := s.log + [Removed({id})])
  }

  /** The next run of a repeating task after a run or a skip; it always goes to the delayed queue. */
  function Repeat(s: Sched, id: TaskId, rec: Record, draw: nat): Sched
    requires id in s.records
  {
    var gen := s.records[id].generation + 1;
    var delay := NextDelay(rec.policy, rec.interval, draw);
    s.(records := s.records[id := rec.(generation := gen, interval := delay, lastDue := s.now + delay)],
       delayed := s.delayed + [Timed(s.now + delay, Slot(id, gen))],
       log := s.log + [Moved(id, s.now + delay, false)])
  }

  /** The validator said no. */
  function DoReject(s: Sched, draw: nat): Sched
    requires s.batch != [] && s.batch[0].id in s.records
  {
    var id := s.batch[0].id;
    var rec := s.records[id];
    var s' := s.(batch := s.batch[1..], log := s.log + [Rejected(id, s.now)]);
    if !rec.repeating then Retire(s', id) else Repeat(s', id, rec.(skips := rec.skips + 1), draw)
  }

  function DoRun(s: Sched): Sched
    requires s.batch != []
  {
    s.(batch := s.batch[1..], running := Some(s.batch[0]), log := s.log + [Ran(s.batch[0].id, s.now)])
  }

  /** The callback returned; stop is a repeating task's wish to end. */
  function DoFinish(s: Sched, stop: bool, draw: nat): Sched
    requires s.running.Some? && s.running.value.id in s.records
  {
    var id := s.running.value.id;
    var rec := s.records[id];
    var s' := s.(running := None);
    if !rec.repeating || stop then Retire(s', id)
    else if rec.canceled then s'
    else Repeat(s', id, rec.(runs := rec.runs + 1), draw)
  }

  // ---------------------------------------------------------------------------
  // Steps
  // ---------------------------------------------------------------------------

  datatype Action =
    | Tick(elapsed: nat)
    | Schedule(delay: int, group: nat)
    | ScheduleEvery(policy: Policy, group: nat, draw: nat)
    | Cancel(id: TaskId)
    | CancelGroup(group: nat)
    | Reschedule(id: TaskId, delay: int)
    | UpdatePolicy(id: TaskId, policy: Policy, draw: nat)
    | Shutdown
    | Collect(due: seq<Timed>, rest: seq<Timed>, max: Option<nat>)
    | Skip
    | Reject(draw: nat)
    | Run
    | Finish(stop: bool, draw: nat)

  /**
   One step. Callbacks run between Run and Finish and may make any of the calls above them, shutdown included; polls do
   not nest.
   */
  ghost function Step(s: Sched, a: Action): Option<Sched> {
    match a
    case Tick(d) => Some(s.(now := s.now + d))
    case Schedule(delay, group) => Some(DoSchedule(s, delay, group))
    case ScheduleEvery(policy, group, draw) =>
      if IsDraw(policy, draw) then Some(DoScheduleEvery(s, policy, group, draw)) else None
    case Cancel(id) => Some(DoCancel(s, id))
    case CancelGroup(group) => Some(DoCancelGroup(s, group))
    case Reschedule(id, delay) => Some(DoReschedule(s, id, delay))
    case UpdatePolicy(id, policy, draw) =>
      if IsDraw(policy, draw) then Some(DoUpdatePolicy(s, id, policy, draw)) else None
    case Shutdown => Some(DoShutdown(s))
    case Collect(due, rest, max) =>
      if BetweenPolls(s) && !s.closed && PopsDue(s, due, rest) then Some(DoCollect(s, due, rest, max)) else None
    case Skip =>
      if s.running.None? && s.batch != [] && !Live(s, s.batch[0]) then Some(s.(batch := s.batch[1..])) else None
    case Reject(draw) =>
      if s.running.None? && s.batch != [] && Live(s, s.batch[0]) && IsDraw(s.records[s.batch[0].id].policy, draw)
      then Some(DoReject(s, draw)) else None
    case Run => if s.running.None? && s.batch != [] && Live(s, s.batch[0]) then Some(DoRun(s)) else None
    case Finish(stop, draw) =>
      if s.running.Some? && s.running.value.id in s.records && IsDraw(s.records[s.running.value.id].policy, draw)
      then Some(DoFinish(s, stop, draw)) else None
  }

  ghost function RunFrom(s: Sched, actions: seq<Action>): Option<Sched> {
    if actions == [] then Some(s) else
      var before := RunFrom(s, actions[..|actions| - 1]);
      if before.None? then None else Step(before.value, actions[|actions| - 1])
  }

  ghost predicate Reachable(s: Sched) {
    exists actions :: RunFrom(EMPTY, actions) == Some(s)
  }

  // ---------------------------------------------------------------------------
  // The plain view: what each task's due time is, told by the history alone
  // ---------------------------------------------------------------------------

  function ApplyEvent(m: map<TaskId, Time>, ev: Event): map<TaskId, Time> {
    match ev
    case Added(id, due) => m[id := due]
    case Moved(id, due, _) => m[id := due]
    case Removed(ids) => m - ids
    case Ran(_, _) => m
    case Rejected(_, _) => m
  }

  function Plain(log: seq<Event>): map<TaskId, Time> {
    if log == [] then map[] else ApplyEvent(Plain(log[..|log| - 1]), log[|log| - 1])
  }

  /** An event fits the history before it: fresh ids are added, present ones moved, and only due ones selected. */
  ghost predicate Fits(log: seq<Event>, ev: Event) {
    match ev
    case Added(id, _) => forall i | 0 <= i < |log| && log[i].Added? :: log[i].id != id
    case Moved(id, _, _) => id in Plain(log)
    case Removed(_) => true
    case Ran(id, at) => id in Plain(log) && Plain(log)[id] <= at
    case Rejected(id, at) => id in Plain(log) && Plain(log)[id] <= at
  }

  ghost predicate LogOk(log: seq<Event>) {
    forall n | 0 <= n < |log| :: Fits(log[..n], log[n])
  }
}
