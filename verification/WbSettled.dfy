/** What becomes of acknowledged entries in whole runs of the pipeline: stored, and out of the pending list for good. */
module WbSettled {
  import opened Options
  import opened WbFields
  import opened WbWorker
  import opened WbReplayer
  import opened WbSystem
  import opened WbHistories

  /** The calls a worker has made since it was last started. */
  function CallsOf(actions: seq<Action>, k: nat): seq<Call> {
    if actions == [] then [] else
      var front, a := actions[..|actions| - 1], actions[|actions| - 1];
      if a == StartWorker(k) then []
      else CallsOf(front, k) + if a.WorkerDoes? && a.worker == k then [a.call] else []
  }

  lemma StepOfWorker(c: Config, s: Sys, a: Action, t: Sys, k: nat)
    requires Step(c, s, a) == Some(t) && k in t.workers
    ensures if a == StartWorker(k) then t.workers[k] == FRESH
            else && k in s.workers
                 && Some(t.workers[k]) == if a.WorkerDoes? && a.worker == k
                                          then WorkerNext(c.worker, s.workers[k], a.call)
                                          else Some(s.workers[k])
  {
    hide WorkerNext, ReplayNext, Accepts;
  }

  /** A worker of the pipeline is where its own calls have led it. */
  lemma {:induction false} OwnRun(c: Config, actions: seq<Action>, k: nat)
    requires Run(c, actions).Some? && k in Run(c, actions).value.workers
    ensures WorkerRun(c.worker, FRESH, CallsOf(actions, k)) == Some(Run(c, actions).value.workers[k])
  {
    hide Step, WorkerNext;
    var front, a := actions[..|actions| - 1], actions[|actions| - 1];
    var s, t := Run(c, front).value, Run(c, actions).value;
    StepOfWorker(c, s, a, t, k);
    if a != StartWorker(k) {
      OwnRun(c, front, k);
      var before, after := CallsOf(front, k), CallsOf(actions, k);
      if a.WorkerDoes? && a.worker == k {
        assert after == before + [a.call] && after[..|before|] == before;
      } else {
        assert after == before;
      }
    }
  }

  /** Where in the run a call of the worker was made. */
  lemma {:induction false} CallIndex(actions: seq<Action>, k: nat, n: nat) returns (i: nat)
    requires n < |CallsOf(actions, k)|
    ensures i < |actions| && actions[i] == WorkerDoes(k, CallsOf(actions, k)[n])
    ensures CallsOf(actions[..i], k) == CallsOf(actions, k)[..n]
  {
    var last := |actions| - 1;
    var front := actions[..last];
    if n < |CallsOf(front, k)| {
      i := CallIndex(front, k, n);
      assert front[..i] == actions[..i];
    } else {
      i := last;
    }
  }

  // ---------------------------------------------------------------------------
  // An applied acknowledgement is final
  // ---------------------------------------------------------------------------

  /** Everything a worker may come to acknowledge was delivered. */
  ghost predicate MayAck(s: Sys, w: Worker) {
    && (forall i | 0 <= i < |w.gone| :: w.gone[i] in s.delivered)
    && (forall id | WillAck(w, id) :: id in s.delivered)
  }

  /** A commit, made or still to come, has the worker acknowledge the id. */
  predicate WillAck(w: Worker, id: string) {
    (OpenTx(w.phase).Some? && id in OpenTx(w.phase).value.acks) || (w.phase.Acking? && id in w.phase.ids)
  }

  ghost predicate AllMayAck(s: Sys) {
    forall k | k in s.workers :: MayAck(s, s.workers[k])
  }

  /** What a call lets the worker acknowledge later: what it could before, what it buffers, or what is reported. */
  lemma NextAcks(c: WorkerConfig, w: Worker, call: Call, id: string)
    requires WorkerNext(c, w, call).Some?
    ensures var v := WorkerNext(c, w, call).value;
            && (id in v.gone ==> id in w.gone || (call.Reclaim? && id in call.deleted))
            && (WillAck(v, id) ==> WillAck(w, id) || exists e | e in w.buf :: e.id == id)
  {
    hide WorkerRow, DlqFields;
  }

  lemma CallMayAck(c: Config, s: Sys, w: Worker, call: Call, u: Sys)
    requires WorkerOk(s, w) && MayAck(s, w) && s.pending <= s.delivered <= u.delivered
    requires WorkerNext(c.worker, w, call).Some? && WorkerEffect(c, s, w, call) == Some(u)
    ensures MayAck(u, WorkerNext(c.worker, w, call).value)
  {
    hide WorkerNext, WorkerEffect, PhaseOk;
    var v := WorkerNext(c.worker, w, call).value;
    if call.Reclaim? { DeletedDelivered(c, s, w, call); }
    forall id ensures id in v.gone ==> id in u.delivered { NextAcks(c.worker, w, call, id); }
    forall id | WillAck(v, id) ensures id in u.delivered { NextAcks(c.worker, w, call, id); }
  }

  lemma DeletedDelivered(c: Config, s: Sys, w: Worker, call: Call)
    requires call.Reclaim? && WorkerEffect(c, s, w, call).Some?
    ensures forall id | id in call.deleted :: id in s.pending
  {
  }

  lemma StepMayAck(c: Config, s: Sys, a: Action, t: Sys)
    requires Step(c, s, a) == Some(t) && Inv(s) && Grows(s, t) && AllMayAck(s)
    ensures AllMayAck(t)
  {
    hide WorkerNext, WorkerEffect, ReplayNext, ReplayEffect, WorkerOk, ReplayerOk, Accounted, MayAck;
    forall k | k in t.workers ensures MayAck(t, t.workers[k]) {
      StepOfWorker(c, s, a, t, k);
      if a == StartWorker(k) {
        FreshMayAck(t);
      } else if a.WorkerDoes? && a.worker == k {
        var u := WorkerEffect(c, s, s.workers[k], a.call).value;
        CallMayAck(c, s, s.workers[k], a.call, u);
        MayAckStays(u, t, t.workers[k]);
      } else {
        MayAckStays(s, t, s.workers[k]);
      }
    }
  }

  lemma FreshMayAck(s: Sys)
    ensures MayAck(s, FRESH)
  {
  }

  lemma MayAckStays(s: Sys, t: Sys, w: Worker)
    requires MayAck(s, w) && s.delivered <= t.delivered
    ensures MayAck(t, w)
  {
  }

  lemma {:induction false} RunMayAck(c: Config, actions: seq<Action>)
    requires Run(c, actions).Some?
    ensures AllMayAck(Run(c, actions).value)
  {
    hide Step, Inv, MayAck;
    if actions != [] {
      var front := actions[..|actions| - 1];
      RunMayAck(c, front);
      RunKeepsInv(c, front);
      StepKeepsInv(c, Run(c, front).value, actions[|actions| - 1], Run(c, actions).value);
      StepMayAck(c, Run(c, front).value, actions[|actions| - 1], Run(c, actions).value);
    }
  }

  ghost predicate Settled(s: Sys, id: string) {
    id in s.delivered && id !in s.pending
  }

  lemma SettledStays(c: Config, s: Sys, a: Action, t: Sys, id: string)
    requires Step(c, s, a) == Some(t) && Settled(s, id)
    ensures Settled(t, id)
  {
    hide WorkerNext, ReplayNext, WorkerEffect, ReplayEffect;
    if a.WorkerDoes? {
      EffectSettles(c, s, s.workers[a.worker], a.call, id);
    } else if a.ReplayerDoes? {
      ReplaySettles(c, s, a.replayCall, id);
    }
  }

  lemma EffectSettles(c: Config, s: Sys, w: Worker, call: Call, id: string)
    requires WorkerEffect(c, s, w, call).Some? && Settled(s, id)
    ensures Settled(WorkerEffect(c, s, w, call).value, id)
  {
    hide Accepts;
  }

  lemma ReplaySettles(c: Config, s: Sys, call: ReplayCall, id: string)
    requires ReplayEffect(c, s, call).Some? && Settled(s, id)
    ensures Settled(ReplayEffect(c, s, call).value, id)
  {
    hide Accepts;
  }

  lemma {:induction false} SettledForGood(c: Config, actions: seq<Action>, i: nat, id: string)
    requires Run(c, actions).Some? && i <= |actions| && Run(c, actions[..i]).Some?
    requires Settled(Run(c, actions[..i]).value, id)
    ensures Settled(Run(c, actions).value, id)
  {
    hide Step, Settled;
    if i < |actions| {
      var front := actions[..|actions| - 1];
      assert front[..i] == actions[..i];
      SettledForGood(c, front, i, id);
      SettledStays(c, Run(c, front).value, actions[|actions| - 1], Run(c, actions).value, id);
    } else {
      assert actions[..i] == actions;
    }
  }

  lemma AckSettles(c: Config, s: Sys, k: nat, id: string, t: Sys)
    requires Inv(s) && AllMayAck(s) && Step(c, s, WorkerDoes(k, Ack(id, true))) == Some(t)
    ensures Settled(t, id)
  {
    hide StoresOk, Accounted, PhaseOk, ReplayerOk;
    var w := s.workers[k];
    assert WorkerOk(s, w) && MayAck(s, w);
    match w.phase
    case SentToDlq(tx) => assert Genuine(s, w.buf[tx.next]);
    case Dropping(tx) => assert Genuine(s, w.buf[tx.next]);
    case Acking(ids) => assert WillAck(w, id);
    case Outer => assert id == w.gone[0];
  }

  /** An entry whose acknowledgement was applied was delivered and is never pending again, in any continuation. */
  lemma AppliedAckIsFinal(c: Config, actions: seq<Action>, i: nat)
    requires Run(c, actions).Some? && i < |actions|
    requires actions[i].WorkerDoes? && actions[i].call.Ack? && actions[i].call.applied
    ensures Settled(Run(c, actions).value, actions[i].call.id)
  {
    hide Run, Step, Inv, AllMayAck, Settled;
    StepAt(c, actions, i);
    RunKeepsInv(c, actions[..i]);
    RunMayAck(c, actions[..i]);
    var a := actions[i];
    AckSettles(c, Run(c, actions[..i]).value, a.worker, a.call.id, Run(c, actions[..i + 1]).value);
    SettledForGood(c, actions, i + 1, a.call.id);
  }

  // ---------------------------------------------------------------------------
  // A committed flush settles what it inserted
  // ---------------------------------------------------------------------------

  lemma CommitStores(c: Config, s: Sys, k: nat, t: Sys, id: string)
    requires Inv(s) && Step(c, s, WorkerDoes(k, Commit(Committed, true))) == Some(t)
    requires OpenTx(s.workers[k].phase).Some? && id in OpenTx(s.workers[k].phase).value.acks
    ensures id in t.db
  {
    hide StoresOk, Accounted, ReplayerOk, Visible, WorkerRow;
    assert WorkerOk(s, s.workers[k]);
  }

  lemma CommitHolds(c: Config, actions: seq<Action>, k: nat, p: nat, id: string)
    requires Run(c, actions).Some? && p < |CallsOf(actions, k)| && CallsOf(actions, k)[p] == Commit(Committed, true)
    requires id in Inserts(CallsOf(actions, k)[..p])
    ensures id in Run(c, actions).value.db
  {
    hide Run, Step, Inv, CallsOf, Inserts, Tried, Taken, Attempts, HasCommitted;
    var i := CallIndex(actions, k, p);
    StepAt(c, actions, i);
    RunKeepsInv(c, actions[..i]);
    var s, t := Run(c, actions[..i]).value, Run(c, actions[..i + 1]).value;
    WorkerThere(c, s, k, Commit(Committed, true), t);
    OwnRun(c, actions[..i], k);
    RunTold(c.worker, CallsOf(actions[..i], k));
    CommitStores(c, s, k, t, id);
    RowsNeverChange(c, actions, i + 1);
  }

  lemma WorkerThere(c: Config, s: Sys, k: nat, call: Call, t: Sys)
    requires Step(c, s, WorkerDoes(k, call)) == Some(t)
    ensures k in s.workers && WorkerNext(c.worker, s.workers[k], call).Some?
    ensures call.Commit? ==> s.workers[k].phase.InTx?
  {
    hide WorkerRow, DlqFields, WorkerEffect;
  }

  /**
   In every run of the pipeline, when a worker has ended a flush that committed and the acknowledgements it made in
   between were applied, every entry inserted in that attempt has its row and is out of the pending list, for good.
   */
  lemma CommittedLeavePending(c: Config, actions: seq<Action>, k: nat, p: nat, m: nat, id: string)
    requires Run(c, actions).Some? && k in Run(c, actions).value.workers && p < m < |CallsOf(actions, k)|
    requires var calls := CallsOf(actions, k);
             && calls[p] == Commit(Committed, true) && calls[m].FlushEnd?
             && (forall i | p < i < m :: !calls[i].FlushEnd? && (calls[i].Ack? ==> calls[i].applied))
    requires id in Inserts(CallsOf(actions, k)[..p])
    ensures id in Run(c, actions).value.db && Settled(Run(c, actions).value, id)
  {
    hide Run, CallsOf, Inserts, WorkerRun, Settled;
    var calls := CallsOf(actions, k);
    CommitHolds(c, actions, k, p, id);
    OwnRun(c, actions, k);
    CommittedAreAcked(c.worker, calls, p, m);
    var ids := Inserts(calls[..p]);
    var n :| 0 <= n < |ids| && ids[n] == id;
    assert calls[p + 1..m][n] == calls[p + 1 + n];
    var i := CallIndex(actions, k, p + 1 + n);
    AppliedAckIsFinal(c, actions, i);
  }

  // ---------------------------------------------------------------------------
  // The dead-letter stream
  // ---------------------------------------------------------------------------

  ghost predicate Gone(s: Sys, at: Position) {
    at < s.nextPos && at !in s.dlq
  }

  lemma GoneStays(c: Config, s: Sys, a: Action, t: Sys, at: Position)
    requires Step(c, s, a) == Some(t) && Gone(s, at)
    ensures Gone(t, at)
  {
    hide WorkerNext, ReplayNext, WorkerEffect, ReplayEffect;
    if a.WorkerDoes? {
      EffectGone(c, s, s.workers[a.worker], a.call, at);
    } else if a.ReplayerDoes? {
      ReplayGone(c, s, a.replayCall, at);
    }
  }

  lemma EffectGone(c: Config, s: Sys, w: Worker, call: Call, at: Position)
    requires WorkerEffect(c, s, w, call).Some? && Gone(s, at)
    ensures Gone(WorkerEffect(c, s, w, call).value, at)
  {
    hide Accepts;
  }

  lemma ReplayGone(c: Config, s: Sys, call: ReplayCall, at: Position)
    requires ReplayEffect(c, s, call).Some? && Gone(s, at)
    ensures Gone(ReplayEffect(c, s, call).value, at)
  {
    hide Accepts;
  }

  lemma {:induction false} GoneForGood(c: Config, actions: seq<Action>, i: nat, at: Position)
    requires Run(c, actions).Some? && i <= |actions| && Run(c, actions[..i]).Some?
    requires Gone(Run(c, actions[..i]).value, at)
    ensures Gone(Run(c, actions).value, at)
  {
    hide Step, Gone;
    if i < |actions| {
      var front := actions[..|actions| - 1];
      assert front[..i] == actions[..i];
      GoneForGood(c, front, i, at);
      GoneStays(c, Run(c, front).value, actions[|actions| - 1], Run(c, actions).value, at);
    } else {
      assert actions[..i] == actions;
    }
  }

  lemma DlqAckRemoves(c: Config, s: Sys, k: nat, at: Position, t: Sys)
    requires Inv(s) && Step(c, s, ReplayerDoes(k, AckDlq(at, true))) == Some(t)
    ensures Gone(t, at)
  {
    hide StoresOk, Accounted, WorkerOk, SafeFrom, ReplayRow, OrigId, RequeueFields, DeadFields, BackoffMs;
    assert ReplayerOk(s, s.replayers[k]);
  }

  /** A dead-letter entry whose acknowledgement was applied is not among the unacknowledged ones in any continuation. */
  lemma AppliedDlqAckIsFinal(c: Config, actions: seq<Action>, i: nat)
    requires Run(c, actions).Some? && i < |actions|
    requires actions[i].ReplayerDoes? && actions[i].replayCall.AckDlq? && actions[i].replayCall.applied
    ensures actions[i].replayCall.at !in Run(c, actions).value.dlq
  {
    hide Run, Step, Inv;
    StepAt(c, actions, i);
    RunKeepsInv(c, actions[..i]);
    var a := actions[i];
    DlqAckRemoves(c, Run(c, actions[..i]).value, a.replayer, a.replayCall.at, Run(c, actions[..i + 1]).value);
    GoneForGood(c, actions, i + 1, a.replayCall.at);
  }
}
