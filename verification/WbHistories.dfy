/**
 What the calls of one worker and of one replayer say about each other, over every history the automata allow:
 which entries a flush tries, what it acknowledges, and what a replayer acknowledges.
 */
module WbHistories {
  import opened Options
  import opened Sequences
  import opened WbFields
  import opened WbWorker
  import opened WbReplayer

  // ---------------------------------------------------------------------------
  // The worker
  // ---------------------------------------------------------------------------

  /** The entries buffered since the last flush ended. */
  function Taken(calls: seq<Call>, inbox: seq<Entry>): (seq<Entry>, seq<Entry>) {
    if calls == [] then ([], inbox) else
      var (buf, waiting) := Taken(calls[..|calls| - 1], inbox);
      match calls[|calls| - 1]
      case ReadNew(es) => (buf, es)
      case Reclaim(es, _) => (buf, es)
      case Take => if waiting == [] then (buf, []) else (buf + [waiting[0]], waiting[1..])
      case FlushEnd => ([], waiting)
      case _ => (buf, waiting)
  }

  /** The ids whose insert was tried since the last transaction began. */
  function Tried(calls: seq<Call>): seq<string> {
    if calls == [] || calls[|calls| - 1].Begin? then [] else
      var call := calls[|calls| - 1];
      Tried(calls[..|calls| - 1]) + if call.Insert? then [call.id] else []
  }

  /** The ids inserted since the last transaction began. */
  function Inserts(calls: seq<Call>): seq<string> {
    if calls == [] || calls[|calls| - 1].Begin? then [] else
      var call := calls[|calls| - 1];
      Inserts(calls[..|calls| - 1]) + if call.Insert? && call.inserted.Inserted? then [call.id] else []
  }

  /** How many attempts were begun since the last flush started. */
  function Attempts(calls: seq<Call>): nat {
    if calls == [] || calls[|calls| - 1].FlushStart? then 0
    else Attempts(calls[..|calls| - 1]) + if calls[|calls| - 1].Begin? then 1 else 0
  }

  /** The last attempt of the flush has committed. */
  predicate HasCommitted(calls: seq<Call>) {
    calls != [] && !calls[|calls| - 1].Begin? && !calls[|calls| - 1].FlushStart?
    && (calls[|calls| - 1] == Commit(Committed, true) || HasCommitted(calls[..|calls| - 1]))
  }

  /** The database connection has been opened and not been lost since. */
  predicate Connected(calls: seq<Call>) {
    calls != [] && var call := calls[|calls| - 1];
    || call.Reconnect?
    || (!(call.Insert? && call.inserted.InsertBroken?) && !(call.Commit? && call.commit.CommitBroken?)
        && Connected(calls[..|calls| - 1]))
  }

  function IdsOf(es: seq<Entry>): seq<string> {
    seq(|es|, i requires 0 <= i < |es| => es[i].id)
  }

  /** The open transaction of a phase. */
  function OpenTx(p: Phase): Option<Tx> {
    match p
    case InTx(tx) => Some(tx)
    case Failed(tx, _) => Some(tx)
    case SentToDlq(tx) => Some(tx)
    case Dropping(tx) => Some(tx)
    case _ => None
  }

  /** How many entries of the buffer were tried: one more than the next one while a failed one is dealt with. */
  function TriedCount(p: Phase): nat
    requires OpenTx(p).Some?
  {
    if p.InTx? then p.tx.next else p.tx.next + 1
  }

  /** What the history says about the state it leads to. */
  ghost predicate Told(c: WorkerConfig, calls: seq<Call>, w: Worker) {
    && Taken(calls, []) == (w.buf, w.inbox) && w.dbUp == Connected(calls)
    && (w.phase.Ready? ==> w.phase.attempt == Attempts(calls) <= c.retryMax)
    && (OpenTx(w.phase).Some? ==>
          && OpenTx(w.phase).value.attempt + 1 == Attempts(calls) <= c.retryMax + 1
          && OpenTx(w.phase).value.acks == Inserts(calls)
          && TriedCount(w.phase) <= |w.buf| && Tried(calls) == IdsOf(w.buf[..TriedCount(w.phase)]))
    && (w.phase.Ready? || OpenTx(w.phase).Some? ==> !HasCommitted(calls))
    && (w.phase.Acking? ==> HasCommitted(calls) && Attempts(calls) <= c.retryMax + 1)
    && (w.phase.Finished? ==> Attempts(calls) <= c.retryMax + 1)
    && (w.phase.Finished? && !HasCommitted(calls) ==> Attempts(calls) == c.retryMax + 1)
  }

  lemma Unfold(calls: seq<Call>, call: Call)
    ensures var all := calls + [call];
            && Tried(all) == (if call.Begin? then [] else Tried(calls) + if call.Insert? then [call.id] else [])
            && Inserts(all) == (if call.Begin? then [] else
                 Inserts(calls) + if call.Insert? && call.inserted.Inserted? then [call.id] else [])
            && Connected(all) == (|| call.Reconnect?
                                  || (&& !(call.Insert? && call.inserted.InsertBroken?)
                                      && !(call.Commit? && call.commit.CommitBroken?) && Connected(calls)))
            && HasCommitted(all) == (!call.Begin? && !call.FlushStart?
                                     && (call == Commit(Committed, true) || HasCommitted(calls)))
            && Attempts(all) == (if call.FlushStart? then 0 else Attempts(calls) + if call.Begin? then 1 else 0)
  {
    assert (calls + [call])[..|calls|] == calls;
  }

  lemma UnfoldTaken(c: WorkerConfig, calls: seq<Call>, call: Call, w: Worker)
    requires Taken(calls, []) == (w.buf, w.inbox) && WorkerNext(c, w, call).Some?
    ensures var v := WorkerNext(c, w, call).value; Taken(calls + [call], []) == (v.buf, v.inbox)
  {
    hide WorkerRow, DlqFields, RetryPhase, AckPhase, UnsentPhase;
    assert (calls + [call])[..|calls|] == calls;
  }

  lemma IdsSnoc(es: seq<Entry>, k: nat)
    requires k < |es|
    ensures IdsOf(es[..k + 1]) == IdsOf(es[..k]) + [es[k].id]
  {
  }

  lemma NextTold(c: WorkerConfig, calls: seq<Call>, w: Worker, call: Call)
    requires Told(c, calls, w) && WorkerNext(c, w, call).Some?
    ensures Told(c, calls + [call], WorkerNext(c, w, call).value)
  {
    hide WorkerRow, DlqFields, Taken, Tried, Inserts, Attempts, HasCommitted, Connected, IdsOf;
    Unfold(calls, call);
    UnfoldTaken(c, calls, call, w);
    if call.Insert? && w.phase.InTx? && w.phase.tx.next < |w.buf| { IdsSnoc(w.buf, w.phase.tx.next); }
    NoIds(w.buf);
  }

  lemma NoIds(es: seq<Entry>)
    ensures IdsOf(es[..0]) == []
  {
  }

  lemma {:induction false} RunTold(c: WorkerConfig, calls: seq<Call>)
    requires WorkerRun(c, FRESH, calls).Some?
    ensures Told(c, calls, WorkerRun(c, FRESH, calls).value)
  {
    if calls != [] {
      hide WorkerNext, Told;
      var front, call := calls[..|calls| - 1], calls[|calls| - 1];
      assert front + [call] == calls;
      RunTold(c, front);
      NextTold(c, front, WorkerRun(c, FRESH, front).value, call);
    }
  }

  lemma {:induction false} PrefixRuns(c: WorkerConfig, calls: seq<Call>, k: nat)
    requires WorkerRun(c, FRESH, calls).Some? && k <= |calls|
    ensures WorkerRun(c, FRESH, calls[..k]).Some?
  {
    hide WorkerNext;
    if k == |calls| {
      assert calls[..k] == calls;
    } else {
      var front := calls[..|calls| - 1];
      assert front[..k] == calls[..k];
      PrefixRuns(c, front, k);
    }
  }

  lemma CallAt(c: WorkerConfig, calls: seq<Call>, k: nat)
    requires WorkerRun(c, FRESH, calls).Some? && k < |calls|
    ensures WorkerRun(c, FRESH, calls[..k]).Some? && WorkerRun(c, FRESH, calls[..k + 1]).Some?
    ensures WorkerNext(c, WorkerRun(c, FRESH, calls[..k]).value, calls[k]) == WorkerRun(c, FRESH, calls[..k + 1])
    ensures Told(c, calls[..k], WorkerRun(c, FRESH, calls[..k]).value)
  {
    hide WorkerNext, Told;
    PrefixRuns(c, calls, k + 1);
    assert calls[..k + 1][..k] == calls[..k];
    RunTold(c, calls[..k]);
  }

  /** Rows are inserted and committed only over a connection that has not been lost. */
  lemma StoresWhenConnected(c: WorkerConfig, calls: seq<Call>, k: nat)
    requires WorkerRun(c, FRESH, calls).Some? && k < |calls| && calls[k] == Begin(true)
    ensures Connected(calls[..k])
  {
    hide WorkerRun, Attempts, HasCommitted, Tried, Inserts, Taken, Connected;
    CallAt(c, calls, k);
  }

  /** A flush ends only after a commit or after all its attempts. */
  lemma FlushEndsExactly(c: WorkerConfig, calls: seq<Call>, m: nat)
    requires WorkerRun(c, FRESH, calls).Some? && m < |calls| && calls[m].FlushEnd?
    ensures Attempts(calls[..m]) <= c.retryMax + 1
    ensures HasCommitted(calls[..m]) || Attempts(calls[..m]) == c.retryMax + 1
  {
    hide WorkerRun, Attempts, HasCommitted, Tried, Inserts, Taken;
    CallAt(c, calls, m);
  }

  /** A commit is asked for only after every buffered entry has been tried, once each and in order. */
  lemma CommitTriedAll(c: WorkerConfig, calls: seq<Call>, k: nat)
    requires WorkerRun(c, FRESH, calls).Some? && k < |calls| && calls[k].Commit?
    ensures Tried(calls[..k]) == IdsOf(Taken(calls[..k], []).0)
  {
    hide WorkerRun, Attempts, HasCommitted, Tried, Inserts, Taken, IdsOf;
    CallAt(c, calls, k);
    var w := WorkerRun(c, FRESH, calls[..k]).value;
    assert w.buf[..|w.buf|] == w.buf;
  }

  /** Some of the acknowledgements due after a commit have been made. */
  ghost predicate AckedSoFar(w: Worker, made: seq<Call>, ids: seq<string>) {
    && |made| <= |ids| && IsAcks(made, ids[..|made|])
    && w.phase == if |made| == |ids| then Finished else Acking(ids[|made|..])
  }

  lemma AckNext(c: WorkerConfig, w: Worker, made: seq<Call>, ids: seq<string>, call: Call)
    requires AckedSoFar(w, made, ids) && WorkerNext(c, w, call).Some? && !call.FlushEnd?
    ensures AckedSoFar(WorkerNext(c, w, call).value, made + [call], ids)
  {
    hide IsAcks;
    var n := |made|;
    assert n < |ids| && call.Ack? && call.id == ids[n];
    AcksSnoc(made, ids[..n], call, ids[n]);
    assert ids[..n] + [ids[n]] == ids[..n + 1] && ids[n..][1..] == ids[n + 1..];
  }

  lemma {:induction false} AckingGoesOn(c: WorkerConfig, calls: seq<Call>, k: nat, m: nat)
    requires WorkerRun(c, FRESH, calls).Some? && k < m <= |calls| && calls[k] == Commit(Committed, true)
    requires forall i | k < i < m :: !calls[i].FlushEnd?
    ensures WorkerRun(c, FRESH, calls[..m]).Some?
    ensures AckedSoFar(WorkerRun(c, FRESH, calls[..m]).value, calls[k + 1..m], Inserts(calls[..k]))
    decreases m
  {
    hide WorkerRun, WorkerNext, AckedSoFar, Told, Inserts;
    CallAt(c, calls, m - 1);
    if m == k + 1 {
      AckingStarts(c, calls[..k], WorkerRun(c, FRESH, calls[..k]).value);
      assert calls[k + 1..m] == [];
    } else {
      AckingGoesOn(c, calls, k, m - 1);
      var w := WorkerRun(c, FRESH, calls[..m - 1]).value;
      AckNext(c, w, calls[k + 1..m - 1], Inserts(calls[..k]), calls[m - 1]);
      assert calls[k + 1..m] == calls[k + 1..m - 1] + [calls[m - 1]];
    }
  }

  lemma AckingStarts(c: WorkerConfig, calls: seq<Call>, w: Worker)
    requires Told(c, calls, w) && WorkerNext(c, w, Commit(Committed, true)).Some?
    ensures AckedSoFar(WorkerNext(c, w, Commit(Committed, true)).value, [], Inserts(calls))
  {
    hide Inserts, Tried, Taken, Attempts, HasCommitted;
    var ids := Inserts(calls);
    assert ids[..0] == [] && ids[0..] == ids;
  }

  /**
   Between a commit and the end of its flush a worker acknowledges exactly the ids inserted in that attempt, one by one
   and in order, and does nothing else.
   */
  lemma CommittedAreAcked(c: WorkerConfig, calls: seq<Call>, k: nat, m: nat)
    requires WorkerRun(c, FRESH, calls).Some? && k < m < |calls| && calls[k] == Commit(Committed, true)
    requires calls[m].FlushEnd? && forall i | k < i < m :: !calls[i].FlushEnd?
    ensures IsAcks(calls[k + 1..m], Inserts(calls[..k]))
  {
    hide WorkerRun, Told, Inserts, IsAcks;
    AckingGoesOn(c, calls, k, m);
    CallAt(c, calls, m);
    var ids := Inserts(calls[..k]);
    assert ids[..|ids|] == ids;
  }

  /**
   After a failed insert: with a dead-letter stream the next call appends a copy of the entry; then, if the append
   returned or errors are to be acknowledged, the entry is acknowledged, and otherwise it is not.
   */
  lemma FailedEntryHandled(c: WorkerConfig, calls: seq<Call>, k: nat)
    requires WorkerRun(c, FRESH, calls).Some? && k + 1 < |calls| && calls[k].Insert? && calls[k].inserted.InsertFailed?
    ensures var id, next := calls[k].id, calls[k + 1];
            if c.dlqOn then
              && next.DlqAdd? && OrigId(next.fields, "") == id
              && (k + 2 < |calls| ==>
                    if next.returned || c.ackOn then calls[k + 2].Ack? && calls[k + 2].id == id
                    else !calls[k + 2].Ack?)
            else if c.ackOn then next.Ack? && next.id == id
            else !next.Ack? && !next.DlqAdd?
  {
    hide WorkerRun, WorkerRow, DlqFields, OrigId, Told;
    CallAt(c, calls, k);
    CallAt(c, calls, k + 1);
    if k + 2 < |calls| { CallAt(c, calls, k + 2); }
    var w := WorkerRun(c, FRESH, calls[..k]).value;
    DlqKeepsEvent(w.buf[w.phase.tx.next], calls[k].inserted.error, "");
  }

  // ---------------------------------------------------------------------------
  // The replayer
  // ---------------------------------------------------------------------------

  /** The position read last. */
  function LastRead(calls: seq<ReplayCall>): Option<Position> {
    if calls == [] then None
    else if calls[|calls| - 1].ReadDlq? then Some(calls[|calls| - 1].at)
    else LastRead(calls[..|calls| - 1])
  }

  /** With this answer the entry has found another place: its row, its requeued copy or its copy in the dead stream. */
  predicate Places(call: ReplayCall) {
    match call
    case Store(_, _, stored, _) => stored.Inserted?
    case DeadAdd(_, ok, _) => ok
    case Requeue(_, _, ok, _) => ok
    case _ => false
  }

  predicate ReplayConnected(calls: seq<ReplayCall>) {
    calls != [] && var call := calls[|calls| - 1];
    call.Reopen? || (!(call.Store? && call.stored.InsertBroken?) && ReplayConnected(calls[..|calls| - 1]))
  }

  ghost predicate ReplayTold(calls: seq<ReplayCall>, r: Replayer) {
    && r.dbUp == ReplayConnected(calls)
    && (!r.phase.Idle? ==> LastRead(calls) == Some(r.phase.at))
    && (r.phase.Settled? <==> calls != [] && Places(calls[|calls| - 1]))
    && (r.phase.Have? <==> calls != [] && calls[|calls| - 1].ReadDlq?)
    && (r.phase.Unstored? <==> calls != [] && calls[|calls| - 1].Store? && calls[|calls| - 1].stored.InsertFailed?)
  }

  lemma {:induction false} RunReplayTold(c: ReplayerConfig, calls: seq<ReplayCall>)
    requires ReplayRun(c, UNSTARTED, calls).Some?
    ensures ReplayTold(calls, ReplayRun(c, UNSTARTED, calls).value)
  {
    hide ReplayRow, OrigId, RequeueFields, DeadFields, BackoffMs, RetryCount;
    if calls != [] { RunReplayTold(c, calls[..|calls| - 1]); }
  }

  lemma {:induction false} ReplayPrefix(c: ReplayerConfig, calls: seq<ReplayCall>, k: nat)
    requires ReplayRun(c, UNSTARTED, calls).Some? && k <= |calls|
    ensures ReplayRun(c, UNSTARTED, calls[..k]).Some?
  {
    hide ReplayNext;
    if k == |calls| {
      assert calls[..k] == calls;
    } else {
      var front := calls[..|calls| - 1];
      assert front[..k] == calls[..k];
      ReplayPrefix(c, front, k);
    }
  }

  lemma ReplayCallAt(c: ReplayerConfig, calls: seq<ReplayCall>, k: nat)
    requires ReplayRun(c, UNSTARTED, calls).Some? && k < |calls|
    ensures ReplayRun(c, UNSTARTED, calls[..k]).Some?
    ensures ReplayTold(calls[..k], ReplayRun(c, UNSTARTED, calls[..k]).value)
    ensures ReplayNext(c, ReplayRun(c, UNSTARTED, calls[..k]).value, calls[k]).Some?
  {
    hide ReplayNext, ReplayTold;
    ReplayPrefix(c, calls, k + 1);
    assert calls[..k + 1][..k] == calls[..k];
    RunReplayTold(c, calls[..k]);
  }

  /**
   What a replayer does next: an entry read is tried at once, a failed one is requeued or buried, one that has found its
   place is acknowledged, and nothing else ever is.
   */
  lemma ReplayStepsFollow(c: ReplayerConfig, calls: seq<ReplayCall>, k: nat)
    requires ReplayRun(c, UNSTARTED, calls).Some? && k + 1 < |calls|
    ensures var call, next := calls[k], calls[k + 1];
            && (call.ReadDlq? <==> next.Store?)
            && (call.ReadDlq? ==> next.id == EventOf(call.at, call.fields))
            && (call.Store? && call.stored.InsertFailed? <==> next.Requeue? || next.DeadAdd?)
            && (Places(call) <==> next.AckDlq?)
            && (next.AckDlq? ==> LastRead(calls[..k + 1]) == Some(next.at))
            && (next.Store? && !next.stored.InsertFailed? ==> ReplayConnected(calls[..k + 1]))
  {
    hide ReplayConnected, ReplayRun, ReplayRow, OrigId, RequeueFields, DeadFields, BackoffMs, RetryCount, LastRead;
    ReplayCallAt(c, calls, k + 1);
    if calls[k].ReadDlq? { StoredIsRead(c, calls, k); }
  }

  lemma StoredIsRead(c: ReplayerConfig, calls: seq<ReplayCall>, k: nat)
    requires ReplayRun(c, UNSTARTED, calls).Some? && k + 1 < |calls| && calls[k].ReadDlq?
    ensures calls[k + 1].Store? && calls[k + 1].id == EventOf(calls[k].at, calls[k].fields)
  {
    hide ReplayRow, OrigId;
    ReplayCallAt(c, calls, k);
    ReplayCallAt(c, calls, k + 1);
    assert calls[..k + 1][..k] == calls[..k];
  }
}
