/**
 The dead-letter replayer: the calls one replayer process makes, as an automaton, and its own methods as paths of
 that automaton.
 */
module WbReplayer {
  import opened Numbers
  import opened Options
  import opened WbFields
  import opened WbWorker

  datatype ReplayerConfig = ReplayerConfig(retryMax: nat, backoffMs: nat)

  const MAX_DELAY := 10000

  /** Position of an entry in the dead-letter stream; Redis hands these out in increasing order. */
  type Position = nat

  /** `applied` and `appended` say what the server did; the replayer sees only the result. */
  datatype ReplayCall =
    | ReadDlq(at: Position, fields: Fields)
    | Store(id: string, row: Row, stored: InsertResult, applied: bool)
    | DeadAdd(fields: Fields, ok: bool, appended: bool)
    | Requeue(delayMs: nat, fields: Fields, ok: bool, appended: bool)
    | AckDlq(at: Position, applied: bool)
    | Reopen

  datatype ReplayPhase =
    | Idle
    | Have(at: Position, fields: Fields)
    | Unstored(at: Position, fields: Fields, error: string)
    | Settled(at: Position)

  datatype Replayer = Replayer(dbUp: bool, phase: ReplayPhase)

  const UNSTARTED := Replayer(false, Idle)

  function EventOf(at: Position, f: Fields): string {
    OrigId(f, NatText(at))
  }

  predicate Exhausted(c: ReplayerConfig, f: Fields) {
    RetryCount(f) + 1 >= c.retryMax
  }

  /** Sleep before the requeue of an entry that already carries this count. */
  function BackoffMs(base: nat, count: int): nat {
    var k: nat := if count < 0 then 0 else count;
    if base >= MAX_DELAY then base else if base * Power(2, k) < MAX_DELAY then base * Power(2, k) else MAX_DELAY
  }

  function ReplayNext(c: ReplayerConfig, r: Replayer, call: ReplayCall): Option<Replayer> {
    match r.phase
    case Idle => (
      match call
      case Reopen => Some(r.(dbUp := true))
      case ReadDlq(at, f) => Some(r.(phase := Have(at, f)))
      case _ => None
    )
    case Have(at, f) => (
      match call
      case Store(id, row, stored, applied) =>
        if id != EventOf(at, f) || row != ReplayRow(f) then None
        else if !r.dbUp && (!stored.InsertFailed? || applied) then None
        else if stored.Inserted? && !applied then None else (
          match stored
          case Inserted => Some(r.(phase := Settled(at)))
          case InsertBroken => Some(Replayer(false, Idle))
          case InsertFailed(error) => Some(r.(phase := Unstored(at, f, error))))
      case _ => None
    )
    case Unstored(at, f, error) => (
      match call
      case DeadAdd(g, ok, appended) =>
        if !Exhausted(c, f) || g != DeadFields(f, EventOf(at, f), error) || (ok && !appended) then None
        else Some(r.(phase := if ok then Settled(at) else Idle))
      case Requeue(delay, g, ok, appended) =>
        if Exhausted(c, f) || g != RequeueFields(f, EventOf(at, f), RetryCount(f), error) || (ok && !appended)
           || delay != BackoffMs(c.backoffMs, RetryCount(f)) then None
        else Some(r.(phase := if ok then Settled(at) else Idle))
      case _ => None
    )
    case Settled(at) => if call.AckDlq? && call.at == at then Some(r.(phase := Idle)) else None
  }

  function ReplayRun(c: ReplayerConfig, r: Replayer, calls: seq<ReplayCall>): Option<Replayer> {
    if calls == [] then Some(r) else
      var before := ReplayRun(c, r, calls[..|calls| - 1]);
      if before.None? then None else ReplayNext(c, before.value, calls[|calls| - 1])
  }

  /** First value of every name. */
  method ToMap(fields: Fields) returns (m: map<string, string>)
    ensures m == FirstWins(fields)
  {
    m := map[];
    for i := 0 to |fields|
      invariant m == FirstWins(fields[..i])
    {
      assert fields[..i + 1][..i] == fields[..i];
      if fields[i].0 !in m { m := m[fields[i].0 := fields[i].1]; }
    }
    assert fields[..|fields|] == fields;
  }

  /** The doubling loop with its 10 second ceiling. */
  method RetryDelay(base: nat, count: int) returns (delay: nat)
    ensures delay == BackoffMs(base, count)
  {
    delay := base;
    var i := 0;
    while i < count
      invariant 0 <= i && (i <= count || count < 0) && (count < 0 ==> i == 0)
      invariant delay == BackoffMs(base, i)
    {
      if delay < MAX_DELAY {
        delay := if delay * 2 < MAX_DELAY then delay * 2 else MAX_DELAY;
        assert base * Power(2, i + 1) == base * Power(2, i) * 2;
      } else if base < MAX_DELAY {
        assert base * Power(2, i + 1) == base * Power(2, i) * 2;
      }
      i := i + 1;
    }
  }

  /** Copy every field except the retry count behind the event id. */
  method CopyFields(orig: string, f: Fields) returns (fields: Fields)
    ensures fields == [(ORIG, orig)] + Without(f, RETRY)
  {
    fields := [(ORIG, orig)];
    for i := 0 to |f|
      invariant fields == [(ORIG, orig)] + Without(f[..i], RETRY)
    {
      assert f[..i + 1][..i] == f[..i];
      if f[i].0 != RETRY { fields := fields + [f[i]]; }
    }
    assert f[..|f|] == f;
  }

  /** The row for a dead-letter entry, read from its map of first values. */
  method BuildRow(ghost f: Fields, mp: map<string, string>) returns (row: Row)
    requires mp == FirstWins(f)
    ensures row == ReplayRow(f)
  {
    var ts := ParseInteger(if "ts_ms" in mp then mp["ts_ms"] else "0", LL_MIN, LL_MAX);
    var payload := map k | k in mp && k != ORIG && k != ERR && k != RETRY :: mp[k];
    assert payload == mp - RESERVED;
    row := Row(if "type" in mp then mp["type"] else "unknown", if ts.Some? then ts.value else 0,
               if "user_id" in mp then mp["user_id"] else "", if "session_id" in mp then mp["session_id"] else "",
               if "room_id" in mp then mp["room_id"] else "", payload);
  }

  class WbDlqReplayer {
    const config: ReplayerConfig
    var dbUp: bool
    ghost var calls: seq<ReplayCall>
    ghost var at: Replayer

    ghost predicate Valid()
      reads this
    {
      ReplayRun(config, UNSTARTED, calls) == Some(at) && at.dbUp == dbUp
    }

    /** The entries taken up so far. */
    ghost function Handled(): seq<(Position, Fields)>
      reads this
    {
      EntriesRead(calls)
    }

    constructor (c: ReplayerConfig)
      ensures Valid() && config == c && at == UNSTARTED
    {
      config, dbUp := c, false;
      calls, at := [], UNSTARTED;
    }

    ghost method Note(call: ReplayCall)
      requires ReplayRun(config, UNSTARTED, calls) == Some(at)
      requires ReplayNext(config, at, call).Some?
      modifies `calls, `at
      ensures ReplayRun(config, UNSTARTED, calls) == Some(at)
      ensures Some(at) == ReplayNext(config, old(at), call)
      ensures calls == old(calls) + [call]
      ensures Handled() == old(Handled()) + if call.ReadDlq? then [(call.at, call.fields)] else []
    {
      assert (calls + [call])[..|calls|] == calls;
      at := ReplayNext(config, at, call).value;
      calls := calls + [call];
    }

    method AckEntry(n: Position)
      requires Valid() && at.phase == Settled(n)
      modifies `calls, `at
      ensures Valid() && Handled() == old(Handled()) && at.phase == Idle
    {
      hide ReplayRun, FirstWins, ParseInteger, EntriesRead;
      var applied: bool := *;
      Note(AckDlq(n, applied));
    }

    /** The insert and its commit, outside any savepoint. */
    method TryInsertToDb(n: Position, f: Fields, orig: string, mp: map<string, string>) returns (stored: InsertResult)
      requires Valid() && at.phase == Have(n, f) && orig == EventOf(n, f) && mp == FirstWins(f)
      modifies this
      ensures Valid() && Handled() == old(Handled())
      ensures at.phase == match stored case Inserted => Settled(n)
                                       case InsertBroken => Idle
                                       case InsertFailed(error) => Unstored(n, f, error)
    {
      hide ReplayRun, FirstWins, ParseInteger, EntriesRead;
      var row := BuildRow(f, mp);
      var applied: bool;
      if dbUp {
        stored, applied := *, *;
        applied := applied || stored.Inserted?;
      } else {
        stored, applied := InsertFailed("DB connection not open"), false;
      }
      Note(Store(orig, row, stored, applied));
      if stored.InsertBroken? { dbUp := false; }
    }

    method MoveToDeadStream(n: Position, f: Fields, orig: string, error: string) returns (ok: bool)
      requires Valid() && at.phase == Unstored(n, f, error) && orig == EventOf(n, f) && Exhausted(config, f)
      modifies `calls, `at
      ensures Valid() && Handled() == old(Handled()) && at.phase == if ok then Settled(n) else Idle
    {
      hide ReplayRun, FirstWins, ParseInteger, EntriesRead;
      var fields := CopyFields(orig, f);
      fields := fields + [(ERR, error)];
      ok := *;
      var appended: bool := *;
      appended := appended || ok;
      Note(DeadAdd(fields, ok, appended));
    }

    method RetryLater(n: Position, f: Fields, orig: string, count: int, error: string)
      requires Valid() && at.phase == Unstored(n, f, error) && orig == EventOf(n, f)
      requires count == RetryCount(f) && !Exhausted(config, f)
      modifies `calls, `at
      ensures Valid() && Handled() == old(Handled()) && at.phase == Idle
    {
      hide ReplayRun, FirstWins, ParseInteger, EntriesRead;
      var delay := RetryDelay(config.backoffMs, count);
      var fields := CopyFields(orig, f);
      fields := fields + [(RETRY, IntText(count + 1))];
      fields := fields + [(ERR, error)];
      assert fields == RequeueFields(f, orig, count, error);
      var ok: bool, appended: bool := *, *;
      appended := appended || ok;
      Note(Requeue(delay, fields, ok, appended));
      if ok { AckEntry(n); }
    }

    method HandleFailure(n: Position, f: Fields, orig: string, count: int, error: string)
      requires Valid() && at.phase == Unstored(n, f, error) && orig == EventOf(n, f) && count == RetryCount(f)
      modifies `calls, `at
      ensures Valid() && Handled() == old(Handled()) && at.phase == Idle
    {
      hide ReplayRun, FirstWins, ParseInteger, EntriesRead;
      if count + 1 >= config.retryMax {
        var moved := MoveToDeadStream(n, f, orig, error);
        if moved { AckEntry(n); }
      } else {
        RetryLater(n, f, orig, count, error);
      }
    }

    /** Replay one dead-letter entry. */
    method ProcessEntry(n: Position, f: Fields)
      requires Valid() && at.phase == Have(n, f)
      modifies this
      ensures Valid() && Handled() == old(Handled()) && at.phase == Idle
    {
      hide ReplayRun, EntriesRead;
      var mp := ToMap(f);
      var orig := if ORIG in mp then mp[ORIG] else NatText(n);
      var count := 0;
      if RETRY in mp {
        var parsed := ParseInteger(mp[RETRY], INT_MIN, INT_MAX);
        if parsed.Some? { count := parsed.value; }
      }
      var stored := TryInsertToDb(n, f, orig, mp);
      match stored
      case Inserted => AckEntry(n);
      case InsertBroken =>
      case InsertFailed(error) => HandleFailure(n, f, orig, count, error);
    }

    /**
     One pass of the replayer's loop: the entries of a read that succeeded are handled one after the other. In the
     run-once mode the loop ends on a failed read and on one that returned fewer entries than a batch.
     */
    method LoopOnce(connected: bool, read: bool, entries: seq<(Position, Fields)>, runOnce: bool, batch: nat)
      returns (stop: bool)
      requires Valid() && at.phase == Idle
      modifies this
      ensures Valid() && at.phase == Idle
      ensures Handled() == old(Handled()) + if (old(dbUp) || connected) && read then entries else []
      ensures stop <==> (old(dbUp) || connected) && runOnce && (!read || entries == [] || |entries| < batch)
    {
      hide ReplayRun, FirstWins, ParseInteger, EntriesRead;
      if !dbUp {
        if !connected { return false; }
        Note(Reopen);
        dbUp := true;
      }
      if !read { return runOnce; }
      if entries == [] && runOnce { return true; }
      for i := 0 to |entries|
        invariant Valid() && at.phase == Idle && Handled() == old(Handled()) + entries[..i]
      {
        Note(ReadDlq(entries[i].0, entries[i].1));
        ProcessEntry(entries[i].0, entries[i].1);
        assert old(Handled()) + entries[..i] + [entries[i]] == old(Handled()) + entries[..i + 1];
      }
      assert entries[..|entries|] == entries;
      stop := runOnce && |entries| < batch;
    }
  }

  /** The entries that calls read, in order. */
  function EntriesRead(calls: seq<ReplayCall>): seq<(Position, Fields)> {
    if calls == [] then [] else
      var call := calls[|calls| - 1];
      EntriesRead(calls[..|calls| - 1]) + if call.ReadDlq? then [(call.at, call.fields)] else []
  }

  /** The sleeps double until the ceiling and never shrink; a base at or above the ceiling is used as it is. */
  lemma {:induction false} BackoffGrows(base: nat, i: nat, j: nat)
    requires i <= j
    ensures BackoffMs(base, i) <= BackoffMs(base, j)
    ensures base < MAX_DELAY ==> BackoffMs(base, j) <= MAX_DELAY
    decreases j
  {
    hide Power;
    if i < j {
      BackoffGrows(base, i, j - 1);
      PowerDoubles(base, j);
    }
  }

  /** The sleep starts at the base and doubles with every count until it reaches ten seconds. */
  lemma SleepDoubles(base: nat, count: nat)
    ensures BackoffMs(base, 0) == base && (base >= 10000 ==> BackoffMs(base, count) == base)
    ensures base < 10000 ==> BackoffMs(base, count + 1) == Min(2 * BackoffMs(base, count), 10000)
  {
    assert Power(2, 0) == 1;
    PowerDoubles(base, count + 1);
  }

  lemma PowerDoubles(base: nat, j: nat)
    requires j > 0
    ensures base * Power(2, j) == 2 * (base * Power(2, j - 1))
  {
  }
}
