/**
 The write-behind worker: what one worker process does between two calls to Redis or the database,
 as an automaton over those calls and their results, and the worker's own methods, each proved to
 issue only calls the automaton allows.
 */
module WbWorker {
  import opened Options
  import opened Sequences
  import opened WbFields

  /** dlqOn is "dlq_on_error and a dead-letter stream is configured". */
  datatype WorkerConfig = WorkerConfig(maxEvents: nat, maxBytes: nat, dlqOn: bool, ackOn: bool, retryMax: nat)

  datatype InsertResult = Inserted | InsertFailed(error: string) | InsertBroken
  datatype CommitResult = Committed | CommitFailed | CommitBroken

  /**
   Calls a worker makes, with their results, and its two internal moves. `appended` and `applied` say what
   the server did, which the worker does not see.
   */
  datatype Call =
    | Reconnect
    | Reclaim(entries: seq<Entry>, deleted: seq<string>)
    | ReadNew(entries: seq<Entry>)
    | Take
    | FlushStart
    | Begin(ready: bool)
    | Insert(id: string, row: Row, inserted: InsertResult)
    | DlqAdd(fields: Fields, returned: bool, appended: bool)
    | Ack(id: string, applied: bool)
    | Commit(commit: CommitResult, applied: bool)
    | FlushEnd

  /**
   The open transaction of one flush attempt: next entry, rows its savepoints hold, ids to acknowledge after commit.
   */
  datatype Tx = Tx(attempt: nat, next: nat, staged: map<string, Row>, acks: seq<string>)

  datatype Phase =
    | Outer
    | Ready(attempt: nat)
    | InTx(tx: Tx)
    | Failed(tx: Tx, error: string)
    | SentToDlq(tx: Tx)
    | Dropping(tx: Tx)
    | Acking(ids: seq<string>)
    | Finished

  /** inbox: entries read but not yet buffered; gone: ids reported deleted, still to be acknowledged. */
  datatype Worker = Worker(inbox: seq<Entry>, gone: seq<string>, buf: seq<Entry>, dbUp: bool, phase: Phase)

  /** Where the first xautoclaim starts. */
  const RECLAIM_START := "0-0"

  const FRESH := Worker([], [], [], false, Outer)

  function RetryPhase(c: WorkerConfig, attempt: nat): Phase {
    if attempt < c.retryMax then Ready(attempt + 1) else Finished
  }

  function AckPhase(ids: seq<string>): Phase {
    if ids == [] then Finished else Acking(ids)
  }

  function SkipEntry(tx: Tx): Phase {
    InTx(tx.(next := tx.next + 1))
  }

  /** An insert that conflicts with an earlier one of the same transaction does nothing. */
  function StageRow(tx: Tx, id: string, row: Row): Tx {
    Tx(tx.attempt, tx.next + 1, if id in tx.staged then tx.staged else tx.staged[id := row], tx.acks + [id])
  }

  /** Where an entry goes that could not be stored and is not (yet) dead-lettered. */
  function UnsentPhase(c: WorkerConfig, tx: Tx): Phase {
    if c.ackOn then Dropping(tx) else SkipEntry(tx)
  }

  /** One move of a worker; None when the worker would not make this call now. */
  function WorkerNext(c: WorkerConfig, w: Worker, call: Call): Option<Worker> {
    match w.phase
    case Outer => (
      match call
      case Reconnect => Some(w.(dbUp := true))
      case Reclaim(es, ids) => if w.inbox == [] && w.gone == [] then Some(w.(inbox := es, gone := ids)) else None
      case ReadNew(es) => if w.inbox == [] && w.gone == [] then Some(w.(inbox := es)) else None
      case Ack(id, _) => if w.gone != [] && id == w.gone[0] then Some(w.(gone := w.gone[1..])) else None
      case Take =>
        if w.gone == [] && w.inbox != [] then Some(w.(inbox := w.inbox[1..], buf := w.buf + [w.inbox[0]])) else None
      case FlushStart => if w.gone == [] && w.buf != [] then Some(w.(phase := Ready(0))) else None
      case _ => None
    )
    case Ready(k) => (
      match call
      case Begin(ready) =>
        if ready && !w.dbUp then None
        else Some(w.(phase := if ready then InTx(Tx(k, 0, map[], [])) else RetryPhase(c, k)))
      case _ => None
    )
    case InTx(tx) => (
      match call
      case Insert(id, row, result) =>
        if tx.next >= |w.buf| || id != w.buf[tx.next].id || row != WorkerRow(w.buf[tx.next].fields) then None else (
          match result
          case Inserted => Some(w.(phase := InTx(StageRow(tx, id, row))))
          case InsertFailed(error) => Some(w.(phase := if c.dlqOn then Failed(tx, error) else UnsentPhase(c, tx)))
          case InsertBroken => Some(w.(dbUp := false, phase := RetryPhase(c, tx.attempt))))
      case Commit(result, applied) =>
        if tx.next != |w.buf| || (result.Committed? && !applied) then None else (
          match result
          case Committed => Some(w.(phase := AckPhase(tx.acks)))
          case CommitFailed => Some(w.(phase := RetryPhase(c, tx.attempt)))
          case CommitBroken => Some(w.(dbUp := false, phase := RetryPhase(c, tx.attempt))))
      case _ => None
    )
    case Failed(tx, error) => (
      match call
      case DlqAdd(fields, returned, _) =>
        if tx.next >= |w.buf| || fields != DlqFields(w.buf[tx.next], error) then None
        else Some(w.(phase := if returned then SentToDlq(tx) else UnsentPhase(c, tx)))
      case _ => None
    )
    case SentToDlq(tx) => (
      match call
      case Ack(id, _) =>
        if tx.next >= |w.buf| || id != w.buf[tx.next].id then None else Some(w.(phase := SkipEntry(tx)))
      case _ => None
    )
    case Dropping(tx) => (
      match call
      case Ack(id, _) =>
        if tx.next >= |w.buf| || id != w.buf[tx.next].id then None else Some(w.(phase := SkipEntry(tx)))
      case _ => None
    )
    case Acking(ids) => (
      match call
      case Ack(id, _) =>
        if ids == [] || id != ids[0] then None else Some(w.(phase := AckPhase(ids[1..])))
      case _ => None
    )
    case Finished => if call.FlushEnd? then Some(w.(buf := [], phase := Outer)) else None
  }

  /** All of a worker's calls in order. */
  function WorkerRun(c: WorkerConfig, w: Worker, calls: seq<Call>): Option<Worker> {
    if calls == [] then Some(w) else
      var before := WorkerRun(c, w, calls[..|calls| - 1]);
      if before.None? then None else WorkerNext(c, before.value, calls[|calls| - 1])
  }

  /** Bytes an entry counts for in the batch limit. */
  function EntryBytes(e: Entry): nat {
    |e.id| + FieldBytes(e.fields)
  }

  function FieldBytes(f: Fields): nat {
    if f == [] then 0 else FieldBytes(f[..|f| - 1]) + |f[|f| - 1].0| + |f[|f| - 1].1| + 4
  }

  function BufferBytes(es: seq<Entry>): nat {
    if es == [] then 0 else BufferBytes(es[..|es| - 1]) + EntryBytes(es[|es| - 1])
  }

  /** The bytes of field lists add up, and one field counts its name, its value and four more. */
  lemma {:induction false} FieldBytesAdd(a: Fields, b: Fields)
    ensures FieldBytes(a + b) == FieldBytes(a) + FieldBytes(b)
    ensures forall field: (string, string) :: FieldBytes([field]) == |field.0| + |field.1| + 4
  {
    forall field: (string, string) ensures FieldBytes([field]) == |field.0| + |field.1| + 4 {
      assert [field][..0] == [] && FieldBytes([]) == 0;
    }
    if b == [] {
      assert a + b == a;
    } else {
      assert (a + b)[..|a + b| - 1] == a + b[..|b| - 1];
      FieldBytesAdd(a, b[..|b| - 1]);
    }
  }

  lemma BufferBytesAppend(es: seq<Entry>, e: Entry)
    ensures BufferBytes(es + [e]) == BufferBytes(es) + EntryBytes(e) && (es + [e])[..|es|] == es && BufferBytes([]) == 0
  {
    assert (es + [e])[..|es|] == es;
  }

  method EstimateEntryBytes(e: Entry) returns (est: nat)
    ensures est == EntryBytes(e)
  {
    est := |e.id|;
    for i := 0 to |e.fields|
      invariant est == |e.id| + FieldBytes(e.fields[..i])
    {
      assert e.fields[..i + 1][..i] == e.fields[..i];
      est := est + |e.fields[i].0| + |e.fields[i].1| + 4;
    }
    assert e.fields[..|e.fields|] == e.fields;
  }

  /** The row for an entry, built by one pass over its fields; a repeated name overwrites. */
  method ProcessEntry(e: Entry) returns (row: Row)
    ensures row == WorkerRow(e.fields)
  {
    var kind, tsText, user, session, room := "unknown", "0", "", "", "";
    var j: map<string, string> := map[];
    for i := 0 to |e.fields|
      invariant j == LastWins(e.fields[..i])
      invariant kind == GetOr(j, "type", "unknown") && tsText == GetOr(j, "ts_ms", "0")
      invariant user == GetOr(j, "user_id", "") && session == GetOr(j, "session_id", "")
      invariant room == GetOr(j, "room_id", "")
    {
      var (name, value) := e.fields[i];
      assert e.fields[..i + 1][..i] == e.fields[..i];
      if name == "type" { kind := value; }
      else if name == "ts_ms" { tsText := value; }
      else if name == "user_id" { user := value; }
      else if name == "session_id" { session := value; }
      else if name == "room_id" { room := value; }
      j := j[name := value];
    }
    assert e.fields[..|e.fields|] == e.fields;
    var ts := ParseInteger(tsText, LL_MIN, LL_MAX);
    var userOk := IsUuid(user);
    var sessionOk := IsUuid(session);
    var roomOk := IsUuid(room);
    row := Row(kind, if ts.Some? then ts.value else 0, if userOk then user else "",
               if sessionOk then session else "", if roomOk then room else "", j);
  }

  /** The dead-letter copy of an entry. */
  method BuildDlqFields(e: Entry, error: string) returns (fields: Fields)
    ensures fields == DlqFields(e, error)
  {
    fields := [(ORIG, e.id)];
    for i := 0 to |e.fields|
      invariant fields == [(ORIG, e.id)] + e.fields[..i]
    {
      fields := fields + [e.fields[i]];
    }
    fields := fields + [(ERR, error)];
  }

  /**
   The worker process. `calls` and `at` are its call history and the automaton state that history leads to;
   the only way to extend them is Note, so every method below is a path of the automaton.
   */
  class WbWorker {
    const config: WorkerConfig
    var buf: seq<Entry>
    var bufBytes: nat
    var dbUp: bool
    var reclaimNextId: string
    ghost var calls: seq<Call>
    ghost var at: Worker

    ghost predicate Valid()
      reads this
    {
      WorkerRun(config, FRESH, calls) == Some(at) && at.buf == buf && at.dbUp == dbUp
    }

    constructor (c: WorkerConfig)
      ensures Valid() && config == c && at == FRESH && bufBytes == 0
    {
      config := c;
      buf, bufBytes, dbUp, reclaimNextId := [], 0, false, RECLAIM_START;
      calls, at := [], FRESH;
    }

    ghost method Note(call: Call)
      requires WorkerRun(config, FRESH, calls) == Some(at)
      requires WorkerNext(config, at, call).Some?
      modifies `calls, `at
      ensures WorkerRun(config, FRESH, calls) == Some(at)
      ensures Some(at) == WorkerNext(config, old(at), call)
      ensures calls == old(calls) + [call]
    {
      assert (calls + [call])[..|calls|] == calls;
      at := WorkerNext(config, at, call).value;
      calls := calls + [call];
    }

    /** xack; the reply does not change what happens next. */
    method AckId(id: string) returns (ok: bool)
      requires WorkerRun(config, FRESH, calls) == Some(at)
      requires WorkerNext(config, at, Ack(id, true)).Some?
      modifies `calls, `at
      ensures WorkerRun(config, FRESH, calls) == Some(at)
      ensures Some(at) == WorkerNext(config, old(at), Ack(id, true))
      ensures exists applied :: calls == old(calls) + [Ack(id, applied)]
    {
      hide WorkerRun;
      var applied: bool := *;
      Note(Ack(id, applied));
      ok := *;
    }

    /**
     An entry whose insert failed: dead-letter it and acknowledge, or acknowledge it as dropped, or leave it pending.
     */
    method RejectEntry(i: nat, ghost tx: Tx, error: string)
      requires Valid() && i == tx.next < |buf|
      requires at.phase == if config.dlqOn then Failed(tx, error) else UnsentPhase(config, tx)
      modifies `calls, `at
      ensures Valid() && at == old(at).(phase := SkipEntry(tx))
    {
      hide WorkerRun;
      var e := buf[i];
      var acked := false;
      if config.dlqOn {
        var fields := BuildDlqFields(e, error);
        var returned: bool, appended: bool := *, *;
        Note(DlqAdd(fields, returned, appended));
        if returned {
          var _ := AckId(e.id);
          acked := true;
        }
      }
      if !acked && config.ackOn {
        var _ := AckId(e.id);
      }
    }

    /** The savepoint of entry i: compute its row and insert it. */
    method InsertEntry(i: nat) returns (result: InsertResult)
      requires Valid() && at.phase.InTx? && at.phase.tx.next == i < |buf|
      modifies `calls, `at, `dbUp
      ensures Valid()
      ensures var tx := old(at.phase.tx);
              at == match result
                    case Inserted => old(at).(phase := InTx(StageRow(tx, buf[i].id, WorkerRow(buf[i].fields))))
                    case InsertFailed(error) =>
                      old(at).(phase := if config.dlqOn then Failed(tx, error) else UnsentPhase(config, tx))
                    case InsertBroken => old(at).(dbUp := false, phase := RetryPhase(config, tx.attempt))
    {
      hide WorkerRun, LastWins;
      var row := ProcessEntry(buf[i]);
      result := *;
      Note(Insert(buf[i].id, row, result));
      match result
      case Inserted =>
      case InsertFailed(_) =>
      case InsertBroken => dbUp := false;
    }

    /** Store entry i inside the open transaction; broken means the connection was lost and the attempt is over. */
    method StoreEntry(i: nat, ackIds: seq<string>) returns (broken: bool, ackIds': seq<string>)
      requires Valid() && at.phase.InTx?
      requires at.phase.tx.next == i < |buf| && at.phase.tx.acks == ackIds
      modifies `calls, `at, `dbUp
      ensures Valid() && at.inbox == old(at.inbox) && at.gone == old(at.gone)
      ensures broken ==> !dbUp && at.phase == RetryPhase(config, old(at.phase.tx.attempt))
      ensures !broken ==> dbUp == old(dbUp) && at.phase.InTx? && at.phase.tx.next == i + 1
                          && at.phase.tx.acks == ackIds' && at.phase.tx.attempt == old(at.phase.tx.attempt)
    {
      hide WorkerRun, WorkerRow, BufferBytes;
      ghost var tx := at.phase.tx;
      var result := InsertEntry(i);
      broken, ackIds' := result.InsertBroken?, ackIds;
      match result
      case Inserted => ackIds' := ackIds + [buf[i].id];
      case InsertBroken =>
      case InsertFailed(error) => RejectEntry(i, tx, error);
    }

    /** Acknowledge the ids of a committed attempt, in order. */
    method AckCommitted(ids: seq<string>)
      requires Valid() && at.phase == AckPhase(ids)
      modifies `calls, `at
      ensures Valid() && at == old(at).(phase := Finished)
      ensures old(calls) <= calls && IsAcks(calls[|old(calls)|..], ids)
    {
      hide WorkerRun;
      for k := 0 to |ids|
        invariant Valid() && at == old(at).(phase := AckPhase(ids[k..]))
        invariant old(calls) <= calls && IsAcks(calls[|old(calls)|..], ids[..k])
      {
        ghost var before := calls;
        var _ := AckId(ids[k]);
        AcksSnoc(before[|old(calls)|..], ids[..k], calls[|before|], ids[k]);
        assert ids[k..][1..] == ids[k + 1..] && ids[..k] + [ids[k]] == ids[..k + 1];
        assert calls[|old(calls)|..] == before[|old(calls)|..] + [calls[|before|]];
      }
      assert ids[..|ids|] == ids;
    }

    /** One attempt of a flush: transaction, savepoint per entry, commit, acknowledgements. */
    method FlushAttempt(k: nat) returns (committed: bool, ghost acked: seq<string>)
      requires Valid() && at.phase == Ready(k) && at.gone == []
      modifies this
      ensures Valid() && unchanged(`buf) && unchanged(`bufBytes)
      ensures at.inbox == old(at.inbox) && at.gone == []
      ensures at.phase == if committed then Finished else RetryPhase(config, k)
      ensures !old(dbUp) ==> !dbUp && !committed
      ensures committed ==> && |acked| < |calls| && calls[|calls| - |acked| - 1] == Commit(Committed, true)
                            && IsAcks(calls[|calls| - |acked|..], acked)
    {
      hide WorkerRun, WorkerRow, BufferBytes, IsAcks;
      committed, acked := false, [];
      var ready: bool := *;
      ready := ready && dbUp;
      Note(Begin(ready));
      if !ready { return; }
      var ackIds: seq<string> := [];
      for i := 0 to |buf|
        invariant Valid() && unchanged(`buf) && unchanged(`bufBytes)
        invariant at.inbox == old(at.inbox) && at.gone == [] && dbUp
        invariant at.phase.InTx? && at.phase.tx.next == i
        invariant at.phase.tx.acks == ackIds && at.phase.tx.attempt == k
      {
        var broken;
        broken, ackIds := StoreEntry(i, ackIds);
        if broken { return; }
      }
      var result: CommitResult, applied: bool := *, *;
      applied := applied || result.Committed?;
      Note(Commit(result, applied));
      match result
      case CommitFailed =>
      case CommitBroken => dbUp := false;
      case Committed =>
        committed, acked := true, ackIds;
        ghost var before := calls;
        AckCommitted(ackIds);
        AcksLength(calls[|before|..], ackIds);
    }

    /** Flush the buffer: up to 1 + retryMax attempts, then the buffer is emptied whatever happened. */
    method Flush()
      requires Valid() && at.phase == Outer && at.gone == []
      modifies this
      ensures Valid() && buf == [] && unchanged(`bufBytes)
      ensures at == Worker(old(at.inbox), [], [], dbUp, Outer)
    {
      hide WorkerRun, WorkerRow, BufferBytes;
      if buf == [] { return; }
      Note(FlushStart);
      var committed, attempt := false, 0;
      while attempt <= config.retryMax && !committed
        invariant Valid() && unchanged(`buf) && unchanged(`bufBytes)
        invariant at.inbox == old(at.inbox) && at.gone == [] && attempt <= config.retryMax + 1
        invariant at.phase == if committed || attempt > config.retryMax then Finished else Ready(attempt)
      {
        ghost var acked;
        committed, acked := FlushAttempt(attempt);
        attempt := attempt + 1;
      }
      Note(FlushEnd);
      buf := [];
    }

    /** Buffer one entry; when a limit is reached the whole buffer is flushed, otherwise nothing is. */
    method BufferOne(e: Entry) returns (flushed: seq<Entry>)
      requires Valid() && at.phase == Outer && at.gone == [] && at.inbox != [] && at.inbox[0] == e
      requires bufBytes == BufferBytes(buf) && UnderLimits(config, buf)
      modifies this
      ensures Valid() && at == Worker(old(at.inbox)[1..], [], buf, dbUp, Outer)
      ensures flushed + buf == old(buf) + [e]
      ensures bufBytes == BufferBytes(buf) && UnderLimits(config, buf)
      ensures flushed == [] || (buf == [] && IsFullBatch(config, flushed))
    {
      hide WorkerRun, BufferBytes;
      var bytes := EstimateEntryBytes(e);
      Note(Take);
      bufBytes := bufBytes + bytes;
      buf := buf + [e];
      BufferBytesAppend(old(buf), e);
      flushed := [];
      if |buf| >= config.maxEvents || bufBytes >= config.maxBytes {
        flushed := buf;
        Flush();
        bufBytes := 0;
      }
    }

    /**
     Move read or reclaimed entries into the buffer, flushing whenever a limit is reached. The flushed batches and
     what stays buffered are the old buffer and the entries, in order; a batch is flushed at the first entry that
     reaches a limit.
     */
    method BufferEntries(entries: seq<Entry>) returns (batches: seq<seq<Entry>>)
      requires Valid() && at.phase == Outer && at.gone == [] && at.inbox == entries
      requires bufBytes == BufferBytes(buf) && UnderLimits(config, buf)
      modifies this
      ensures Valid() && at == Worker([], [], buf, dbUp, Outer)
      ensures Flatten(batches) + buf == old(buf) + entries
      ensures bufBytes == BufferBytes(buf) && UnderLimits(config, buf)
      ensures forall b | b in batches :: IsFullBatch(config, b)
    {
      hide WorkerRun, BufferBytes;
      batches := [];
      for i := 0 to |entries|
        invariant Valid() && at == Worker(entries[i..], [], buf, dbUp, Outer)
        invariant Flatten(batches) + buf == old(buf) + entries[..i]
        invariant bufBytes == BufferBytes(buf) && UnderLimits(config, buf)
        invariant forall b | b in batches :: IsFullBatch(config, b)
      {
        ghost var before := buf;
        var flushed := BufferOne(entries[i]);
        RegroupBatches(batches, flushed, old(buf), before, buf, entries, i);
        assert entries[i..][1..] == entries[i + 1..];
        if flushed != [] { batches := batches + [flushed]; }
      }
    }

    /**
     One xautoclaim. Its cursor moves to where the answer says, if it says so; ids whose entries no longer exist are
     acknowledged one after the other and nothing else is done about them.
     */
    method ClaimPending(next: string) returns (claimed: Option<seq<Entry>>, ghost deleted: seq<string>)
      requires Valid() && at == Worker([], [], buf, dbUp, Outer)
      modifies `calls, `at, `reclaimNextId
      ensures Valid() && at == Worker(if claimed.Some? then claimed.value else [], [], buf, dbUp, Outer)
      ensures claimed.None? ==> calls == old(calls) && reclaimNextId == old(reclaimNextId)
      ensures claimed.Some? ==>
                && reclaimNextId == (if next == "" then old(reclaimNextId) else next)
                && old(calls) + [Reclaim(claimed.value, deleted)] <= calls
                && IsAcks(calls[|old(calls)| + 1..], deleted)
    {
      hide WorkerRun;
      var failed: bool, entries: seq<Entry>, ids: seq<string> := *, *, *;
      deleted := ids;
      if failed { return None, ids; }
      Note(Reclaim(entries, ids));
      if next != "" { reclaimNextId := next; }
      ghost var first := calls;
      for k := 0 to |ids|
        invariant Valid() && at == Worker(entries, ids[k..], buf, dbUp, Outer)
        invariant reclaimNextId == if next == "" then old(reclaimNextId) else next
        invariant first == old(calls) + [Reclaim(entries, ids)] && first <= calls && IsAcks(calls[|first|..], ids[..k])
      {
        ghost var before := calls;
        var _ := AckId(ids[k]);
        AcksSnoc(before[|first|..], ids[..k], calls[|before|], ids[k]);
        assert ids[k..][1..] == ids[k + 1..] && ids[..k] + [ids[k]] == ids[..k + 1];
        assert calls[|first|..] == before[|first|..] + [calls[|before|]];
      }
      assert ids[..|ids|] == ids;
      claimed := Some(entries);
    }

    /** Take over entries left pending by other workers: they go through the buffer as fresh ones do. */
    method ReclaimPending(next: string) returns (claimed: seq<Entry>, batches: seq<seq<Entry>>)
      requires Valid() && at == Worker([], [], buf, dbUp, Outer)
      requires bufBytes == BufferBytes(buf) && UnderLimits(config, buf)
      modifies this
      ensures Valid() && at == Worker([], [], buf, dbUp, Outer)
      ensures Flatten(batches) + buf == old(buf) + claimed && forall b | b in batches :: IsFullBatch(config, b)
      ensures bufBytes == BufferBytes(buf) && UnderLimits(config, buf)
    {
      hide WorkerRun, BufferBytes, IsAcks, IsFullBatch;
      claimed, batches := [], [];
      var answer, _ := ClaimPending(next);
      if answer.None? { return; }
      claimed := answer.value;
      batches := BufferEntries(claimed);
    }

    /**
     One pass of the worker's loop. Without a database nothing is read; a due flush that is reached leaves nothing
     buffered.
     */
    method LoopOnce(connects: bool, flushDue: bool, reclaimDue: bool) returns (read: bool)
      requires Valid() && at == Worker([], [], buf, dbUp, Outer)
      requires bufBytes == BufferBytes(buf) && UnderLimits(config, buf)
      modifies this
      ensures Valid() && at == Worker([], [], buf, dbUp, Outer)
      ensures bufBytes == BufferBytes(buf) && UnderLimits(config, buf)
      ensures !old(dbUp) && !connects ==> !read && calls == old(calls) && buf == old(buf)
      ensures read && flushDue ==> buf == []
    {
      hide WorkerRun;
      read := false;
      if !dbUp {
        if !connects { return; }
        Note(Reconnect);
        dbUp := true;
      }
      if reclaimDue {
        var next: string := *;
        var _, _ := ReclaimPending(next);
      }
      var answered: bool, entries: seq<Entry> := *, *;
      if !answered { return; }
      read := true;
      Note(ReadNew(entries));
      var _ := BufferEntries(entries);
      if buf != [] && flushDue {
        Flush();
        bufBytes := 0;
      }
    }
  }

  /** Acknowledgements of these ids, one after the other. */
  ghost predicate IsAcks(calls: seq<Call>, ids: seq<string>) {
    |calls| == |ids| && forall i | 0 <= i < |ids| :: calls[i].Ack? && calls[i].id == ids[i]
  }

  lemma AcksLength(calls: seq<Call>, ids: seq<string>)
    requires IsAcks(calls, ids)
    ensures |calls| == |ids|
  {
  }

  lemma AcksSnoc(calls: seq<Call>, ids: seq<string>, call: Call, id: string)
    requires IsAcks(calls, ids) && call.Ack? && call.id == id
    ensures IsAcks(calls + [call], ids + [id])
  {
  }

  lemma RegroupBatches(batches: seq<seq<Entry>>, flushed: seq<Entry>, first: seq<Entry>, before: seq<Entry>,
                       after: seq<Entry>, entries: seq<Entry>, i: nat)
    requires i < |entries|
    requires Flatten(batches) + before == first + entries[..i]
    requires flushed + after == before + [entries[i]]
    ensures Flatten(if flushed == [] then batches else batches + [flushed]) + after == first + entries[..i + 1]
  {
    FlattenSnoc(batches, flushed);
    var done := Flatten(batches);
    calc {
      (done + flushed) + after;
      done + (flushed + after);
      (done + before) + [entries[i]];
      first + (entries[..i] + [entries[i]]);
      { assert entries[..i] + [entries[i]] == entries[..i + 1]; }
      first + entries[..i + 1];
    }
    assert flushed == [] ==> done + flushed == done;
  }

  /** An empty buffer, or one below both batch limits. */
  predicate UnderLimits(c: WorkerConfig, b: seq<Entry>) {
    b == [] || (|b| < c.maxEvents && BufferBytes(b) < c.maxBytes)
  }

  predicate IsFullBatch(c: WorkerConfig, b: seq<Entry>) {
    b != [] && !(|b| < c.maxEvents && BufferBytes(b) < c.maxBytes) && UnderLimits(c, b[..|b| - 1])
  }
}
