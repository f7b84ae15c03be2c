/**
 The whole write-behind pipeline: any number of workers and replayers over one main stream with a consumer group,
 one dead-letter stream, one dead stream and one database, interleaved call by call, with crashes at any point.
 */
module WbSystem {
  import opened Options
  import opened WbFields
  import opened WbWorker
  import opened WbReplayer

  /** casts: texts the database casts to a uuid, beyond the usual ones; takes: rows it has no other objection to. */
  datatype Database = Database(casts: string -> bool, takes: Row -> bool)

  datatype Config = Config(worker: WorkerConfig, replayer: ReplayerConfig, database: Database)

  predicate Castable(d: Database, text: string) {
    text == "" || IsUuidText(text) || d.casts(text)
  }

  /** An insert of the row succeeds, or does nothing on conflict; of any other row it fails. */
  predicate Accepts(d: Database, row: Row) {
    Castable(d, row.user) && Castable(d, row.session) && Castable(d, row.room) && d.takes(row)
  }

  /**
   events, delivered, pending: everything appended to the main stream, handed to the group so far, not acknowledged.
   trimmed: events whose stream entry no longer exists. dlq: dead-letter entries not acknowledged.
   The next three only record history: events acknowledged by ack_on_error, events reported deleted by xautoclaim,
   and events for which an append to the dead-letter stream returned without having appended.
   */
  datatype Sys = Sys(
    events: map<string, Fields>, delivered: set<string>, pending: set<string>, trimmed: set<string>,
    db: map<string, Row>, dlq: map<Position, Fields>, nextPos: Position, dead: seq<Fields>,
    dropped: set<string>, reported: set<string>, unappended: set<string>,
    workers: map<nat, Worker>, replayers: map<nat, Replayer>)

  datatype Action =
    | Produce(entry: Entry)
    | Trim(id: string)
    | StartWorker(worker: nat)
    | StartReplayer(replayer: nat)
    | WorkerDoes(worker: nat, call: Call)
    | ReplayerDoes(replayer: nat, replayCall: ReplayCall)

  const INITIAL := Sys(map[], {}, {}, {}, map[], map[], 0, [], {}, {}, {}, map[], map[])

  function Ids(es: seq<Entry>): set<string> {
    set e | e in es :: e.id
  }

  predicate Stored(s: Sys, e: Entry) {
    e.id in s.events && s.events[e.id] == e.fields && e.id !in s.trimmed
  }

  predicate Distinct(es: seq<Entry>) {
    forall i, j | 0 <= i < j < |es| :: es[i].id != es[j].id
  }

  /** What a worker's call does to the shared stores; None when the servers could not answer it that way. */
  function WorkerEffect(c: Config, s: Sys, w: Worker, call: Call): Option<Sys> {
    match call
    case ReadNew(es) =>
      if Distinct(es) && (forall e | e in es :: Stored(s, e) && e.id !in s.delivered)
      then Some(s.(delivered := s.delivered + Ids(es), pending := s.pending + Ids(es)))
      else None
    case Reclaim(es, ids) =>
      if (forall e | e in es :: Stored(s, e) && e.id in s.pending)
         && (forall id | id in ids :: id in s.pending && id in s.trimmed)
      then Some(s.(reported := s.reported + (set id | id in ids)))
      else None
    case DlqAdd(fields, returned, appended) =>
      if appended then Some(s.(dlq := s.dlq[s.nextPos := fields], nextPos := s.nextPos + 1))
      else if returned && w.phase.Failed? && w.phase.tx.next < |w.buf|
      then Some(s.(unappended := s.unappended + {w.buf[w.phase.tx.next].id}))
      else Some(s)
    case Ack(id, applied) =>
      if !applied then Some(s)
      else Some(s.(pending := s.pending - {id}, dropped := s.dropped + if w.phase.Dropping? then {id} else {}))
    case Insert(_, row, result) => if result.Inserted? && !Accepts(c.database, row) then None else Some(s)
    case Commit(_, applied) =>
      Some(if applied && w.phase.InTx? then s.(db := w.phase.tx.staged + s.db) else s)
    case _ => Some(s)
  }

  function ReplayEffect(c: Config, s: Sys, call: ReplayCall): Option<Sys> {
    match call
    case ReadDlq(at, f) => if at in s.dlq && s.dlq[at] == f then Some(s) else None
    case Store(id, row, stored, applied) =>
      if (stored.Inserted? || applied) && !Accepts(c.database, row) then None
      else Some(if applied && id !in s.db then s.(db := s.db[id := row]) else s)
    case DeadAdd(f, _, appended) => Some(if appended then s.(dead := s.dead + [f]) else s)
    case Requeue(_, f, _, appended) =>
      Some(if appended then s.(dlq := s.dlq[s.nextPos := f], nextPos := s.nextPos + 1) else s)
    case AckDlq(at, applied) => Some(if applied then s.(dlq := s.dlq - {at}) else s)
    case Reopen => Some(s)
  }

  /** One step of the pipeline. Starting a process that runs is its crash and restart: it forgets everything. */
  function Step(c: Config, s: Sys, a: Action): Option<Sys> {
    match a
    case Produce(e) => if e.id in s.events then None else Some(s.(events := s.events[e.id := e.fields]))
    case Trim(id) => Some(s.(trimmed := s.trimmed + {id}))
    case StartWorker(k) => Some(s.(workers := s.workers[k := FRESH]))
    case StartReplayer(k) => Some(s.(replayers := s.replayers[k := UNSTARTED]))
    case WorkerDoes(k, call) =>
      if k !in s.workers then None else
        var w' := WorkerNext(c.worker, s.workers[k], call);
        var s' := WorkerEffect(c, s, s.workers[k], call);
        if w'.None? || s'.None? then None else Some(s'.value.(workers := s.workers[k := w'.value]))
    case ReplayerDoes(k, call) =>
      if k !in s.replayers then None else
        var r' := ReplayNext(c.replayer, s.replayers[k], call);
        var s' := ReplayEffect(c, s, call);
        if r'.None? || s'.None? then None else Some(s'.value.(replayers := s.replayers[k := r'.value]))
  }

  function Run(c: Config, actions: seq<Action>): Option<Sys> {
    if actions == [] then Some(INITIAL) else
      var before := Run(c, actions[..|actions| - 1]);
      if before.None? then None else Step(c, before.value, actions[|actions| - 1])
  }

  lemma {:induction false} RunPrefix(c: Config, actions: seq<Action>, j: nat)
    requires Run(c, actions).Some? && j <= |actions|
    ensures Run(c, actions[..j]).Some?
  {
    hide Step;
    if j < |actions| {
      var front := actions[..|actions| - 1];
      RunPrefix(c, front, j);
      assert front[..j] == actions[..j];
    } else {
      assert actions[..j] == actions;
    }
  }

  lemma StepAt(c: Config, actions: seq<Action>, i: nat)
    requires Run(c, actions).Some? && i < |actions|
    ensures Run(c, actions[..i]).Some? && Run(c, actions[..i + 1]).Some?
    ensures Step(c, Run(c, actions[..i]).value, actions[i]) == Run(c, actions[..i + 1])
  {
    hide Step;
    RunPrefix(c, actions, i + 1);
    assert actions[..i + 1][..i] == actions[..i];
  }

  // ---------------------------------------------------------------------------
  // Where an event can be
  // ---------------------------------------------------------------------------

  ghost predicate InDead(s: Sys, id: string) {
    exists i :: 0 <= i < |s.dead| && OrigId(s.dead[i], "") == id
  }

  ghost predicate InDlqFrom(s: Sys, id: string, p: Position) {
    exists q :: q in s.dlq && q >= p && EventOf(q, s.dlq[q]) == id
  }

  /** Stored, buried, dropped by choice, reported deleted, or claimed by an append that did not happen. */
  ghost predicate Final(s: Sys, id: string) {
    id in s.db || InDead(s, id) || id in s.dropped || id in s.reported || id in s.unappended
  }

  ghost predicate SafeFrom(s: Sys, id: string, p: Position) {
    Final(s, id) || InDlqFrom(s, id, p)
  }

  // ---------------------------------------------------------------------------
  // The invariant
  // ---------------------------------------------------------------------------

  ghost predicate Genuine(s: Sys, e: Entry) {
    e.id in s.delivered && e.id in s.events && s.events[e.id] == e.fields
  }

  /** The rows a transaction has staged are the worker's rows of real events, and it acknowledges only staged ids. */
  ghost predicate TxOk(s: Sys, tx: Tx) {
    && (forall id | id in tx.staged :: id in s.events && tx.staged[id] == WorkerRow(s.events[id]))
    && (forall i | 0 <= i < |tx.acks| :: tx.acks[i] in tx.staged)
  }

  ghost predicate PhaseOk(s: Sys, w: Worker) {
    match w.phase
    case InTx(tx) => TxOk(s, tx)
    case Failed(tx, _) => TxOk(s, tx)
    case Dropping(tx) => TxOk(s, tx)
    case SentToDlq(tx) => TxOk(s, tx) && tx.next < |w.buf| && SafeFrom(s, w.buf[tx.next].id, 0)
    case Acking(ids) => forall i | 0 <= i < |ids| :: ids[i] in s.db
    case _ => true
  }

  ghost predicate WorkerOk(s: Sys, w: Worker) {
    && (forall i | 0 <= i < |w.inbox| :: Genuine(s, w.inbox[i]))
    && (forall i | 0 <= i < |w.buf| :: Genuine(s, w.buf[i]))
    && (forall i | 0 <= i < |w.gone| :: w.gone[i] in s.reported)
    && PhaseOk(s, w)
  }

  /** A dead-letter entry stands for a real event and still shows its visible fields. */
  ghost predicate EntryOk(s: Sys, at: Position, f: Fields) {
    && EventOf(at, f) in s.events
    && Visible(f) == Visible(s.events[EventOf(at, f)])
    && at < s.nextPos
    && (at in s.dlq ==> s.dlq[at] == f)
  }

  ghost predicate ReplayerOk(s: Sys, r: Replayer) {
    match r.phase
    case Idle => true
    case Have(at, f) => EntryOk(s, at, f)
    case Unstored(at, f, _) => EntryOk(s, at, f)
    case Settled(at) => at < s.nextPos && (at in s.dlq ==> SafeFrom(s, EventOf(at, s.dlq[at]), at + 1))
  }

  ghost predicate RowOk(s: Sys, id: string, row: Row) {
    id in s.events && (row == WorkerRow(s.events[id]) || row == ReplayRow(s.events[id]))
  }

  /** A buried event can be recovered: its copy in the dead stream names it and still shows its visible fields. */
  ghost predicate BuriedOk(s: Sys, f: Fields) {
    OrigId(f, "") in s.events && Visible(f) == Visible(s.events[OrigId(f, "")])
  }

  ghost predicate StoresOk(s: Sys) {
    && s.pending <= s.delivered <= s.events.Keys
    && (forall i | 0 <= i < |s.dead| :: BuriedOk(s, s.dead[i]))
    && (forall p | p in s.dlq :: EntryOk(s, p, s.dlq[p]))
    && (forall id | id in s.db :: RowOk(s, id, s.db[id]))
  }

  ghost predicate Accounted(s: Sys) {
    forall id | id in s.delivered :: id in s.pending || SafeFrom(s, id, 0)
  }

  ghost predicate Inv(s: Sys) {
    && StoresOk(s)
    && Accounted(s)
    && (forall k | k in s.workers :: WorkerOk(s, s.workers[k]))
    && (forall k | k in s.replayers :: ReplayerOk(s, s.replayers[k]))
  }

  // ---------------------------------------------------------------------------
  // What every step keeps: history only grows, and a dead-letter entry disappears only once its event is safe
  // further on in the stream
  // ---------------------------------------------------------------------------

  ghost predicate Extends<V(!new)>(m: map<string, V>, m': map<string, V>) {
    forall k | k in m :: k in m' && m'[k] == m[k]
  }

  ghost predicate Grows(s: Sys, t: Sys) {
    && Extends(s.events, t.events)
    && Extends(s.db, t.db)
    && s.delivered <= t.delivered
    && s.dead <= t.dead
    && s.dropped <= t.dropped && s.reported <= t.reported && s.unappended <= t.unappended
    && s.nextPos <= t.nextPos
    && (forall q | q in t.dlq && q < s.nextPos :: q in s.dlq && t.dlq[q] == s.dlq[q])
    && (forall q | q in s.dlq && q !in t.dlq :: SafeFrom(t, EventOf(q, s.dlq[q]), q + 1))
  }

  lemma SafeStable(s: Sys, t: Sys, id: string, p: Position)
    requires Grows(s, t) && SafeFrom(s, id, p)
    requires forall q | q in s.dlq :: q < s.nextPos
    ensures SafeFrom(t, id, p)
  {
    hide FirstWins, OrigId, Visible, WorkerRow, ReplayRow, EventOf;
    if id in s.db {
    } else if InDead(s, id) {
      var i :| 0 <= i < |s.dead| && OrigId(s.dead[i], "") == id;
      assert t.dead[i] == s.dead[i];
    } else if !Final(s, id) {
      var q :| q in s.dlq && q >= p && EventOf(q, s.dlq[q]) == id;
      if q in t.dlq {
        assert t.dlq[q] == s.dlq[q];
      } else if !Final(t, id) {
        assert InDlqFrom(t, id, q + 1);
        var q' :| q' in t.dlq && q' >= q + 1 && EventOf(q', t.dlq[q']) == id;
      }
    }
  }

  lemma WorkerStable(s: Sys, t: Sys, w: Worker)
    requires StoresOk(s) && Grows(s, t) && WorkerOk(s, w)
    ensures WorkerOk(t, w)
  {
    hide FirstWins, OrigId, Visible, WorkerRow, ReplayRow, EventOf;
    if w.phase.SentToDlq? {
      SafeStable(s, t, w.buf[w.phase.tx.next].id, 0);
    }
  }

  lemma ReplayerStable(s: Sys, t: Sys, r: Replayer)
    requires StoresOk(s) && Grows(s, t) && ReplayerOk(s, r)
    ensures ReplayerOk(t, r)
  {
    hide FirstWins, OrigId, Visible, WorkerRow, ReplayRow, EventOf;
    if r.phase.Settled? && r.phase.at in t.dlq {
      var at := r.phase.at;
      assert t.dlq[at] == s.dlq[at];
      SafeStable(s, t, EventOf(at, s.dlq[at]), at + 1);
    }
  }

  /** The invariant carries over to a grown state once its stores and the newly unpending events are checked. */
  lemma InvFromParts(s: Sys, t: Sys)
    requires Inv(s) && Grows(s, t) && StoresOk(t) && t.workers == s.workers && t.replayers == s.replayers
    requires forall id | id in t.delivered && id !in t.pending ::
               SafeFrom(t, id, 0) || (id in s.delivered && id !in s.pending)
    ensures Inv(t)
  {
    hide FirstWins, OrigId, Visible, WorkerRow, ReplayRow, EventOf;
    forall id | id in t.delivered && id !in t.pending ensures SafeFrom(t, id, 0) {
      if !SafeFrom(t, id, 0) { SafeStable(s, t, id, 0); }
    }
    forall k | k in t.workers ensures WorkerOk(t, t.workers[k]) { WorkerStable(s, t, s.workers[k]); }
    forall k | k in t.replayers ensures ReplayerOk(t, t.replayers[k]) { ReplayerStable(s, t, s.replayers[k]); }
  }

  lemma SameStoresSafe(u: Sys, t: Sys, id: string, p: Position)
    requires SafeFrom(u, id, p) && t == u.(workers := t.workers, replayers := t.replayers)
    ensures SafeFrom(t, id, p)
  {
    hide FirstWins, OrigId, Visible, WorkerRow, ReplayRow, EventOf;
    if InDead(u, id) {
      var i :| 0 <= i < |u.dead| && OrigId(u.dead[i], "") == id;
      assert t.dead[i] == u.dead[i];
    } else if !Final(u, id) {
      var q :| q in u.dlq && q >= p && EventOf(q, u.dlq[q]) == id;
      assert q in t.dlq;
    }
  }

  /** Replacing one process changes nothing that the other parts of the invariant mention. */
  lemma SwapProcess(s: Sys, u: Sys, t: Sys)
    requires Inv(u) && Grows(s, u) && t == u.(workers := t.workers, replayers := t.replayers)
    requires forall k | k in t.workers :: (k in u.workers && t.workers[k] == u.workers[k]) || WorkerOk(u, t.workers[k])
    requires forall k | k in t.replayers ::
               (k in u.replayers && t.replayers[k] == u.replayers[k]) || ReplayerOk(u, t.replayers[k])
    ensures Inv(t) && Grows(s, t)
  {
    hide FirstWins, OrigId, Visible, WorkerRow, ReplayRow, EventOf;
    var v := u.(workers := t.workers, replayers := t.replayers);
    assert Grows(u, v);
    forall k | k in t.workers ensures WorkerOk(t, t.workers[k]) { WorkerStable(u, t, t.workers[k]); }
    forall k | k in t.replayers ensures ReplayerOk(t, t.replayers[k]) { ReplayerStable(u, t, t.replayers[k]); }
    forall id | id in t.delivered && id !in t.pending ensures SafeFrom(t, id, 0) { SameStoresSafe(u, t, id, 0); }
    forall q | q in s.dlq && q !in t.dlq ensures SafeFrom(t, EventOf(q, s.dlq[q]), q + 1) {
      SameStoresSafe(u, t, EventOf(q, s.dlq[q]), q + 1);
    }
  }

  // ---------------------------------------------------------------------------
  // Worker steps
  // ---------------------------------------------------------------------------

  /** Moves of a worker that touch no shared store. */
  lemma LocalMove(c: Config, s: Sys, w: Worker, call: Call, w': Worker)
    requires WorkerOk(s, w) && WorkerNext(c.worker, w, call) == Some(w')
    requires call.Reconnect? || call.Take? || call.FlushStart? || call.Begin? || call.FlushEnd?
             || (call.Insert? && StoresOk(s))
    ensures WorkerOk(s, w')
  {
    hide FirstWins, OrigId, Visible, WorkerRow, ReplayRow, EventOf;
    if call.Insert? && call.inserted.Inserted? {
      var tx := w.phase.tx;
      var tx' := StageRow(tx, call.id, call.row);
      assert Genuine(s, w.buf[tx.next]);
      assert TxOk(s, tx');
    }
  }

  lemma ReadNewStep(c: Config, s: Sys, w: Worker, es: seq<Entry>, t: Sys)
    requires Inv(s) && WorkerOk(s, w) && WorkerEffect(c, s, w, ReadNew(es)) == Some(t)
    ensures Inv(t) && Grows(s, t)
    ensures forall i | 0 <= i < |es| :: Genuine(t, es[i])
  {
    hide FirstWins, OrigId, Visible, WorkerRow, ReplayRow, EventOf;
    forall e | e in es ensures e.id in Ids(es) {}
    forall id | id in Ids(es) ensures id in s.events && id !in s.delivered {
      var e :| e in es && e.id == id;
    }
    InvFromParts(s, t);
  }

  lemma ReclaimStep(c: Config, s: Sys, w: Worker, es: seq<Entry>, ids: seq<string>, t: Sys)
    requires Inv(s) && WorkerEffect(c, s, w, Reclaim(es, ids)) == Some(t)
    ensures Inv(t) && Grows(s, t)
    ensures forall i | 0 <= i < |es| :: Genuine(t, es[i])
    ensures forall i | 0 <= i < |ids| :: ids[i] in t.reported
  {
    hide FirstWins, OrigId, Visible, WorkerRow, ReplayRow, EventOf;
    InvFromParts(s, t);
  }

  /** Appending a well-formed entry at the end of the dead-letter stream. */
  lemma AppendDlq(s: Sys, f: Fields, t: Sys)
    requires Inv(s) && t == s.(dlq := s.dlq[s.nextPos := f], nextPos := s.nextPos + 1)
    requires EventOf(s.nextPos, f) in s.events && Visible(f) == Visible(s.events[EventOf(s.nextPos, f)])
    ensures Inv(t) && Grows(s, t)
    ensures InDlqFrom(t, EventOf(s.nextPos, f), s.nextPos)
  {
    hide FirstWins, OrigId, Visible, WorkerRow, ReplayRow, EventOf;
    assert s.nextPos in t.dlq && t.dlq[s.nextPos] == f;
    forall q | q in s.dlq ensures q < s.nextPos { assert EntryOk(s, q, s.dlq[q]); }
    forall p | p in t.dlq ensures EntryOk(t, p, t.dlq[p]) {
      if p != s.nextPos { assert EntryOk(s, p, s.dlq[p]); }
    }
    InvFromParts(s, t);
  }

  lemma MissedAppend(s: Sys, ids: set<string>, t: Sys)
    requires Inv(s) && t == s.(unappended := s.unappended + ids)
    ensures Inv(t) && Grows(s, t)
  {
    hide FirstWins, OrigId, Visible, WorkerRow, ReplayRow, EventOf;
    InvFromParts(s, t);
  }

  lemma DlqAddShared(c: Config, s: Sys, w: Worker, call: Call, t: Sys)
    requires Inv(s) && call.DlqAdd? && w.phase.Failed? && w.phase.tx.next < |w.buf|
    requires Genuine(s, w.buf[w.phase.tx.next])
    requires call.fields == DlqFields(w.buf[w.phase.tx.next], w.phase.error)
    requires WorkerEffect(c, s, w, call) == Some(t)
    ensures Inv(t) && Grows(s, t)
    ensures call.returned ==> SafeFrom(t, w.buf[w.phase.tx.next].id, 0)
  {
    hide FirstWins, Visible, WorkerRow, ReplayRow, DlqFields;
    var e := w.buf[w.phase.tx.next];
    if call.appended {
      DlqKeepsEvent(e, w.phase.error, NatText(s.nextPos));
      AppendDlq(s, call.fields, t);
      assert InDlqFrom(t, e.id, 0);
    } else {
      MissedAppend(s, if call.returned then {e.id} else {}, t);
    }
  }

  lemma DlqAddStep(c: Config, s: Sys, w: Worker, call: Call, w': Worker, t: Sys)
    requires Inv(s) && WorkerOk(s, w) && call.DlqAdd?
    requires WorkerNext(c.worker, w, call) == Some(w') && WorkerEffect(c, s, w, call) == Some(t)
    ensures Inv(t) && Grows(s, t) && WorkerOk(t, w')
  {
    hide FirstWins, Visible, OrigId, WorkerRow, ReplayRow, EntryOk;
    assert w.phase.Failed?;
    assert Genuine(s, w.buf[w.phase.tx.next]);
    DlqAddShared(c, s, w, call, t);
    WorkerStable(s, t, w);
  }

  /** What entitles a worker to an acknowledgement. */
  lemma AckIsSafe(c: Config, s: Sys, w: Worker, id: string, w': Worker)
    requires Inv(s) && WorkerOk(s, w) && WorkerNext(c.worker, w, Ack(id, true)) == Some(w')
    ensures SafeFrom(s, id, 0) || w.phase.Dropping?
  {
    hide FirstWins, OrigId, Visible, WorkerRow, ReplayRow, EventOf;
    match w.phase
    case Outer => assert w.gone[0] in s.reported;
    case SentToDlq(_) =>
    case Dropping(_) =>
    case Acking(ids) => assert ids[0] in s.db;
  }

  lemma AckShared(c: Config, s: Sys, w: Worker, id: string, t: Sys)
    requires Inv(s) && (SafeFrom(s, id, 0) || w.phase.Dropping?)
    requires WorkerEffect(c, s, w, Ack(id, true)) == Some(t)
    ensures Inv(t) && Grows(s, t)
  {
    hide FirstWins, OrigId, Visible, WorkerRow, ReplayRow, EventOf;
    if SafeFrom(s, id, 0) { SafeStable(s, t, id, 0); }
    InvFromParts(s, t);
  }

  lemma AckLocal(c: Config, s: Sys, w: Worker, call: Call, w': Worker)
    requires WorkerOk(s, w) && call.Ack? && WorkerNext(c.worker, w, call) == Some(w')
    ensures WorkerOk(s, w')
  {
    hide FirstWins, OrigId, Visible, WorkerRow, ReplayRow, EventOf;
    if w.phase.Acking? {
      var ids := w.phase.ids;
      assert forall i | 0 <= i < |ids[1..]| :: ids[1..][i] == ids[i + 1];
    }
  }

  lemma AckStep(c: Config, s: Sys, w: Worker, call: Call, w': Worker, t: Sys)
    requires Inv(s) && WorkerOk(s, w) && call.Ack?
    requires WorkerNext(c.worker, w, call) == Some(w') && WorkerEffect(c, s, w, call) == Some(t)
    ensures Inv(t) && Grows(s, t) && WorkerOk(t, w')
  {
    hide FirstWins, Visible, OrigId, WorkerRow, ReplayRow, EntryOk;
    if call.applied {
      AckIsSafe(c, s, w, call.id, w');
      AckShared(c, s, w, call.id, t);
    }
    WorkerStable(s, t, w);
    AckLocal(c, t, w, call, w');
  }

  lemma CommitShared(s: Sys, tx: Tx, t: Sys)
    requires Inv(s) && TxOk(s, tx) && t == s.(db := tx.staged + s.db)
    ensures Inv(t) && Grows(s, t)
  {
    hide FirstWins, OrigId, Visible, WorkerRow, ReplayRow, EventOf;
    forall id | id in t.db ensures RowOk(t, id, t.db[id]) {
      if id in s.db { assert RowOk(s, id, s.db[id]); }
    }
    InvFromParts(s, t);
  }

  lemma CommitStep(c: Config, s: Sys, w: Worker, call: Call, w': Worker, t: Sys)
    requires Inv(s) && WorkerOk(s, w) && call.Commit?
    requires WorkerNext(c.worker, w, call) == Some(w') && WorkerEffect(c, s, w, call) == Some(t)
    ensures Inv(t) && Grows(s, t) && WorkerOk(t, w')
  {
    hide FirstWins, Visible, OrigId, WorkerRow, ReplayRow, EntryOk, SafeFrom, ReplayerOk;
    var tx := w.phase.tx;
    if call.applied { CommitShared(s, tx, t); }
    WorkerStable(s, t, w);
    if call.commit.Committed? {
      forall i | 0 <= i < |tx.acks| ensures tx.acks[i] in t.db { assert tx.acks[i] in tx.staged; }
    }
  }

  lemma LoadStep(c: Config, s: Sys, w: Worker, call: Call, w': Worker, t: Sys)
    requires Inv(s) && WorkerOk(s, w) && (call.ReadNew? || call.Reclaim?)
    requires WorkerNext(c.worker, w, call) == Some(w') && WorkerEffect(c, s, w, call) == Some(t)
    ensures Inv(t) && Grows(s, t) && WorkerOk(t, w')
  {
    hide FirstWins, Visible, OrigId, WorkerRow, ReplayRow, EntryOk, SafeFrom;
    if call.ReadNew? {
      ReadNewStep(c, s, w, call.entries, t);
    } else {
      ReclaimStep(c, s, w, call.entries, call.deleted, t);
    }
    WorkerStable(s, t, w);
  }

  lemma LocalStep(c: Config, s: Sys, w: Worker, call: Call, w': Worker, u: Sys)
    requires Inv(s) && WorkerOk(s, w)
    requires !call.ReadNew? && !call.Reclaim? && !call.DlqAdd? && !call.Ack? && !call.Commit?
    requires WorkerNext(c.worker, w, call) == Some(w') && WorkerEffect(c, s, w, call) == Some(u)
    ensures Inv(u) && Grows(s, u) && WorkerOk(u, w')
  {
    hide WorkerNext, EntryOk, WorkerOk;
    LocalMove(c, s, w, call, w');
  }

  lemma EffectStep(c: Config, s: Sys, w: Worker, call: Call, w': Worker, u: Sys)
    requires Inv(s) && WorkerOk(s, w)
    requires WorkerNext(c.worker, w, call) == Some(w') && WorkerEffect(c, s, w, call) == Some(u)
    ensures Inv(u) && Grows(s, u) && WorkerOk(u, w')
  {
    hide WorkerNext, WorkerEffect, Inv, Grows, WorkerOk;
    if call.ReadNew? || call.Reclaim? { LoadStep(c, s, w, call, w', u); }
    else if call.DlqAdd? { DlqAddStep(c, s, w, call, w', u); }
    else if call.Ack? { AckStep(c, s, w, call, w', u); }
    else if call.Commit? { CommitStep(c, s, w, call, w', u); }
    else { LocalStep(c, s, w, call, w', u); }
  }

  lemma WorkerStep(c: Config, s: Sys, k: nat, call: Call, t: Sys)
    requires Inv(s) && Step(c, s, WorkerDoes(k, call)) == Some(t)
    ensures Inv(t) && Grows(s, t)
  {
    hide WorkerNext, Grows, WorkerOk, StoresOk, Accounted;
    var w := s.workers[k];
    var u := WorkerEffect(c, s, w, call).value;
    EffectStep(c, s, w, call, WorkerNext(c.worker, w, call).value, u);
    SwapProcess(s, u, t);
  }

  // ---------------------------------------------------------------------------
  // Replayer steps
  // ---------------------------------------------------------------------------

  lemma StoreShared(s: Sys, at: Position, f: Fields, t: Sys)
    requires Inv(s) && EntryOk(s, at, f) && EventOf(at, f) !in s.db
    requires t == s.(db := s.db[EventOf(at, f) := ReplayRow(f)])
    ensures Inv(t) && Grows(s, t)
  {
    hide FirstWins, OrigId, Visible, WorkerRow, ReplayRow, EventOf;
    var id := EventOf(at, f);
    ReplayRowOfVisible(f, s.events[id]);
    forall x | x in t.db ensures RowOk(t, x, t.db[x]) {
      if x != id { assert RowOk(s, x, s.db[x]); }
    }
    InvFromParts(s, t);
  }

  lemma BuryShared(s: Sys, at: Position, f: Fields, error: string, t: Sys)
    requires Inv(s) && EntryOk(s, at, f)
    requires t == s.(dead := s.dead + [DeadFields(f, EventOf(at, f), error)])
    ensures Inv(t) && Grows(s, t) && InDead(t, EventOf(at, f))
  {
    hide FirstWins, Visible, WorkerRow, ReplayRow, DeadFields;
    DeadKeepsEvent(f, EventOf(at, f), error, "");
    assert t.dead[|s.dead|] == DeadFields(f, EventOf(at, f), error);
    forall i | 0 <= i < |t.dead| ensures BuriedOk(t, t.dead[i]) {
      if i < |s.dead| { assert BuriedOk(s, s.dead[i]); }
    }
    InvFromParts(s, t);
  }

  lemma RequeueShared(s: Sys, at: Position, f: Fields, error: string, t: Sys)
    requires Inv(s) && EntryOk(s, at, f)
    requires var g := RequeueFields(f, EventOf(at, f), RetryCount(f), error);
             t == s.(dlq := s.dlq[s.nextPos := g], nextPos := s.nextPos + 1)
    ensures Inv(t) && Grows(s, t) && InDlqFrom(t, EventOf(at, f), at + 1)
  {
    hide FirstWins, Visible, WorkerRow, ReplayRow, RequeueFields, RetryCount;
    RequeueKeepsEvent(f, EventOf(at, f), RetryCount(f), error, NatText(s.nextPos));
    AppendDlq(s, RequeueFields(f, EventOf(at, f), RetryCount(f), error), t);
    var q :| q in t.dlq && q >= s.nextPos && EventOf(q, t.dlq[q]) == EventOf(at, f);
  }

  lemma SafeWithoutEntry(s: Sys, at: Position, t: Sys, id: string)
    requires t == s.(dlq := s.dlq - {at}) && SafeFrom(s, id, at + 1)
    ensures SafeFrom(t, id, at + 1)
  {
    hide FirstWins, OrigId, Visible, WorkerRow, ReplayRow, EventOf;
    if InDead(s, id) {
      var i :| 0 <= i < |s.dead| && OrigId(s.dead[i], "") == id;
      assert t.dead[i] == s.dead[i];
    } else if !Final(s, id) {
      var q :| q in s.dlq && q >= at + 1 && EventOf(q, s.dlq[q]) == id;
      assert q in t.dlq;
    }
  }

  /** An entry leaves the dead-letter stream only when its event is safe further on. */
  lemma UnqueueShared(s: Sys, at: Position, t: Sys)
    requires Inv(s) && t == s.(dlq := s.dlq - {at})
    requires at in s.dlq ==> SafeFrom(s, EventOf(at, s.dlq[at]), at + 1)
    ensures Inv(t) && Grows(s, t)
  {
    hide FirstWins, OrigId, Visible, WorkerRow, ReplayRow, EventOf;
    if at in s.dlq { SafeWithoutEntry(s, at, t, EventOf(at, s.dlq[at])); }
    InvFromParts(s, t);
  }

  lemma StoreStep(c: Config, s: Sys, r: Replayer, call: ReplayCall, r': Replayer, t: Sys)
    requires Inv(s) && ReplayerOk(s, r) && call.Store?
    requires ReplayNext(c.replayer, r, call) == Some(r') && ReplayEffect(c, s, call) == Some(t)
    ensures Inv(t) && Grows(s, t) && ReplayerOk(t, r')
  {
    hide FirstWins, Visible, OrigId, WorkerRow, ReplayRow;
    if t != s { StoreShared(s, r.phase.at, r.phase.fields, t); }
    ReplayerStable(s, t, r);
    assert call.stored.Inserted? ==> call.id in t.db;
  }

  lemma BuryStep(c: Config, s: Sys, r: Replayer, call: ReplayCall, r': Replayer, t: Sys)
    requires Inv(s) && ReplayerOk(s, r) && call.DeadAdd?
    requires ReplayNext(c.replayer, r, call) == Some(r') && ReplayEffect(c, s, call) == Some(t)
    ensures Inv(t) && Grows(s, t) && ReplayerOk(t, r')
  {
    hide FirstWins, Visible, OrigId, WorkerRow, ReplayRow;
    var Unstored(at, f, error) := r.phase;
    if call.appended { BuryShared(s, at, f, error, t); }
    ReplayerStable(s, t, r);
  }

  lemma RequeueStep(c: Config, s: Sys, r: Replayer, call: ReplayCall, r': Replayer, t: Sys)
    requires Inv(s) && ReplayerOk(s, r) && call.Requeue?
    requires ReplayNext(c.replayer, r, call) == Some(r') && ReplayEffect(c, s, call) == Some(t)
    ensures Inv(t) && Grows(s, t) && ReplayerOk(t, r')
  {
    hide FirstWins, Visible, OrigId, WorkerRow, ReplayRow;
    var Unstored(at, f, error) := r.phase;
    if call.appended { RequeueShared(s, at, f, error, t); }
    ReplayerStable(s, t, r);
  }

  lemma SettleStep(c: Config, s: Sys, r: Replayer, call: ReplayCall, r': Replayer, t: Sys)
    requires Inv(s) && ReplayerOk(s, r) && (call.AckDlq? || call.ReadDlq? || call.Reopen?)
    requires ReplayNext(c.replayer, r, call) == Some(r') && ReplayEffect(c, s, call) == Some(t)
    ensures Inv(t) && Grows(s, t) && ReplayerOk(t, r')
  {
    if call.AckDlq? && call.applied { UnqueueShared(s, call.at, t); }
    if call.ReadDlq? { assert EntryOk(s, call.at, s.dlq[call.at]); }
  }

  lemma ReplayerStep(c: Config, s: Sys, k: nat, call: ReplayCall, t: Sys)
    requires Inv(s) && Step(c, s, ReplayerDoes(k, call)) == Some(t)
    ensures Inv(t) && Grows(s, t)
  {
    hide ReplayNext, Grows, ReplayerOk, StoresOk, Accounted;
    var r := s.replayers[k];
    var r' := ReplayNext(c.replayer, r, call).value;
    var u := ReplayEffect(c, s, call).value;
    assert ReplayerOk(s, r);
    match call {
      case Store(_, _, _, _) => StoreStep(c, s, r, call, r', u);
      case DeadAdd(_, _, _) => BuryStep(c, s, r, call, r', u);
      case Requeue(_, _, _, _) => RequeueStep(c, s, r, call, r', u);
      case _ => SettleStep(c, s, r, call, r', u);
    }
    SwapProcess(s, u, t);
  }

  lemma ProduceStep(s: Sys, e: Entry, t: Sys)
    requires Inv(s) && e.id !in s.events && t == s.(events := s.events[e.id := e.fields])
    ensures Inv(t) && Grows(s, t)
  {
    hide FirstWins, OrigId, Visible, WorkerRow, ReplayRow, EventOf;
    InvFromParts(s, t);
  }

  lemma TrimStep(s: Sys, id: string, t: Sys)
    requires Inv(s) && t == s.(trimmed := s.trimmed + {id})
    ensures Inv(t) && Grows(s, t)
  {
    hide FirstWins, OrigId, Visible, WorkerRow, ReplayRow, EventOf;
    InvFromParts(s, t);
  }

  lemma StartStep(s: Sys, k: nat, worker: bool, t: Sys)
    requires Inv(s)
    requires t == if worker then s.(workers := s.workers[k := FRESH]) else s.(replayers := s.replayers[k := UNSTARTED])
    ensures Inv(t) && Grows(s, t)
  {
    SwapProcess(s, s, t);
  }

  lemma StepKeepsInv(c: Config, s: Sys, a: Action, t: Sys)
    requires Inv(s) && Step(c, s, a) == Some(t)
    ensures Inv(t) && Grows(s, t)
  {
    hide WorkerNext, WorkerEffect, ReplayNext, ReplayEffect, Inv, Grows;
    match a
    case Produce(e) => ProduceStep(s, e, t);
    case Trim(id) => TrimStep(s, id, t);
    case StartWorker(k) => StartStep(s, k, true, t);
    case StartReplayer(k) => StartStep(s, k, false, t);
    case WorkerDoes(k, call) => WorkerStep(c, s, k, call, t);
    case ReplayerDoes(k, call) => ReplayerStep(c, s, k, call, t);
  }

  lemma {:induction false} RunKeepsInv(c: Config, actions: seq<Action>)
    requires Run(c, actions).Some?
    ensures Inv(Run(c, actions).value)
  {
    if actions != [] {
      var front := actions[..|actions| - 1];
      RunKeepsInv(c, front);
      StepKeepsInv(c, Run(c, front).value, actions[|actions| - 1], Run(c, actions).value);
    }
  }

  // ---------------------------------------------------------------------------
  // Main results
  // ---------------------------------------------------------------------------

  /**
   No loss, over every interleaving, crash, rollback, redelivery and failed acknowledgement: an event that has left
   the pending list is stored, waits in the dead-letter stream, is buried, was dropped by choice, was reported
   deleted, or was acknowledged after an append that returned without appending.
   */
  lemma NoLoss(c: Config, actions: seq<Action>, id: string)
    requires Run(c, actions).Some?
    ensures var s := Run(c, actions).value;
            id in s.delivered && id !in s.pending ==>
              id in s.db || InDlqFrom(s, id, 0) || InDead(s, id)
              || id in s.dropped || id in s.reported || id in s.unappended
  {
    RunKeepsInv(c, actions);
  }

  /** Every append to the dead-letter stream that returned to a worker did append. */
  ghost predicate HonestAppends(actions: seq<Action>) {
    forall i | 0 <= i < |actions| && actions[i].WorkerDoes? && actions[i].call.DlqAdd? ::
      actions[i].call.returned ==> actions[i].call.appended
  }

  lemma NoDroppingByDefault(c: Config, w: Worker, call: Call, w': Worker)
    requires !c.worker.ackOn && !w.phase.Dropping? && WorkerNext(c.worker, w, call) == Some(w')
    ensures !w'.phase.Dropping?
  {
  }

  ghost predicate NoneDropping(s: Sys) {
    forall k | k in s.workers :: !s.workers[k].phase.Dropping?
  }

  lemma WorkerHistory(c: Config, s: Sys, w: Worker, call: Call, t: Sys)
    requires WorkerEffect(c, s, w, call) == Some(t)
    ensures t.unappended != s.unappended ==> call.DlqAdd? && call.returned && !call.appended
    ensures !w.phase.Dropping? ==> t.dropped == s.dropped
    ensures t.trimmed == s.trimmed && (s.reported <= s.trimmed ==> t.reported <= t.trimmed)
  {
    hide Accepts;
  }

  lemma ReplayHistory(c: Config, s: Sys, call: ReplayCall, t: Sys)
    requires ReplayEffect(c, s, call) == Some(t)
    ensures t.unappended == s.unappended && t.dropped == s.dropped && t.trimmed == s.trimmed && t.reported == s.reported
  {
    hide Accepts;
  }

  lemma StepHistory(c: Config, s: Sys, a: Action, t: Sys)
    requires Step(c, s, a) == Some(t)
    ensures t.unappended != s.unappended ==> a.WorkerDoes? && a.call.DlqAdd? && a.call.returned && !a.call.appended
    ensures NoneDropping(s) ==> t.dropped == s.dropped
    ensures s.trimmed <= t.trimmed && (s.reported <= s.trimmed ==> t.reported <= t.trimmed)
  {
    hide WorkerNext, ReplayNext, WorkerEffect, ReplayEffect;
    if a.WorkerDoes? {
      var w := s.workers[a.worker];
      WorkerHistory(c, s, w, a.call, WorkerEffect(c, s, w, a.call).value);
    } else if a.ReplayerDoes? {
      ReplayHistory(c, s, a.replayCall, ReplayEffect(c, s, a.replayCall).value);
    }
  }

  lemma StepDropsNothing(c: Config, s: Sys, a: Action, t: Sys)
    requires Step(c, s, a) == Some(t) && !c.worker.ackOn && NoneDropping(s)
    ensures NoneDropping(t)
  {
    hide WorkerNext, ReplayNext;
    if a.WorkerDoes? { NoDroppingByDefault(c, s.workers[a.worker], a.call, t.workers[a.worker]); }
  }

  /**
   The exceptional ends of an event have their causes: a dishonest append, the ack_on_error option, a trimmed stream.
   */
  lemma {:induction false} ExceptionsHaveCauses(c: Config, actions: seq<Action>)
    requires Run(c, actions).Some?
    ensures var s := Run(c, actions).value;
            && (HonestAppends(actions) ==> s.unappended == {})
            && (!c.worker.ackOn ==> s.dropped == {} && NoneDropping(s))
            && s.reported <= s.trimmed
  {
    if actions != [] {
      var front := actions[..|actions| - 1];
      var a := actions[|actions| - 1];
      ExceptionsHaveCauses(c, front);
      StepHistory(c, Run(c, front).value, a, Run(c, actions).value);
      if !c.worker.ackOn { StepDropsNothing(c, Run(c, front).value, a, Run(c, actions).value); }
      if HonestAppends(actions) {
        assert forall i | 0 <= i < |front| :: front[i] == actions[i];
        assert HonestAppends(front);
      }
    }
  }

  /** With honest appends, ack_on_error off and an untrimmed stream, nothing is ever lost. */
  lemma NothingLost(c: Config, actions: seq<Action>, id: string)
    requires Run(c, actions).Some? && HonestAppends(actions) && !c.worker.ackOn
    ensures var s := Run(c, actions).value;
            id in s.delivered && id !in s.trimmed ==>
              id in s.pending || id in s.db || InDlqFrom(s, id, 0) || InDead(s, id)
  {
    NoLoss(c, actions, id);
    ExceptionsHaveCauses(c, actions);
  }

  /** Once written, a row stays as it is for the rest of the run. */
  lemma {:induction false} RowsNeverChange(c: Config, actions: seq<Action>, n: nat)
    requires n <= |actions| && Run(c, actions).Some?
    ensures Run(c, actions[..n]).Some?
    ensures Extends(Run(c, actions[..n]).value.db, Run(c, actions).value.db)
    ensures Extends(Run(c, actions[..n]).value.events, Run(c, actions).value.events)
    decreases |actions|
  {
    if n == |actions| {
      assert actions[..n] == actions;
    } else {
      var front := actions[..|actions| - 1];
      RowsNeverChange(c, front, n);
      assert front[..n] == actions[..n];
      RunKeepsInv(c, front);
      StepKeepsInv(c, Run(c, front).value, actions[|actions| - 1], Run(c, actions).value);
    }
  }

  /** Only accepted rows are staged or stored. */
  ghost predicate Accepted(c: Config, s: Sys) {
    && (forall id | id in s.db :: Accepts(c.database, s.db[id]))
    && (forall k | k in s.workers :: StagedAccepted(c, s.workers[k]))
  }

  function StagedRows(w: Worker): map<string, Row> {
    match w.phase
    case InTx(tx) => tx.staged
    case Failed(tx, _) => tx.staged
    case SentToDlq(tx) => tx.staged
    case Dropping(tx) => tx.staged
    case _ => map[]
  }

  ghost predicate StagedAccepted(c: Config, w: Worker) {
    forall id | id in StagedRows(w) :: Accepts(c.database, StagedRows(w)[id])
  }

  lemma StageAccepts(c: Config, s: Sys, w: Worker, call: Call, w': Worker)
    requires WorkerNext(c.worker, w, call) == Some(w') && StagedAccepted(c, w)
    requires call.Insert? && call.inserted.Inserted? ==> Accepts(c.database, call.row)
    ensures StagedAccepted(c, w')
  {
    hide Accepts, WorkerRow, DlqFields;
    forall id | id in StagedRows(w') ensures Accepts(c.database, StagedRows(w')[id]) {
      if id in StagedRows(w) && StagedRows(w')[id] == StagedRows(w)[id] {
        assert Accepts(c.database, StagedRows(w)[id]);
      }
    }
  }

  lemma WorkerAccepts(c: Config, s: Sys, w: Worker, call: Call, w': Worker, t: Sys)
    requires WorkerNext(c.worker, w, call) == Some(w') && WorkerEffect(c, s, w, call) == Some(t)
    requires StagedAccepted(c, w) && forall id | id in s.db :: Accepts(c.database, s.db[id])
    ensures StagedAccepted(c, w') && forall id | id in t.db :: Accepts(c.database, t.db[id])
  {
    StageAccepts(c, s, w, call, w');
    hide Accepts, WorkerNext;
    forall id | id in t.db ensures Accepts(c.database, t.db[id]) {
      if id in s.db && t.db[id] == s.db[id] {
        assert Accepts(c.database, s.db[id]);
      } else {
        assert id in StagedRows(w) && t.db[id] == StagedRows(w)[id];
      }
    }
  }

  lemma StepAccepts(c: Config, s: Sys, a: Action, t: Sys)
    requires Accepted(c, s) && Step(c, s, a) == Some(t)
    ensures Accepted(c, t)
  {
    hide Accepts, WorkerNext, WorkerEffect, ReplayNext, ReplayEffect, StagedAccepted;
    if a.ReplayerDoes? {
      ReplayAccepts(c, s, a.replayCall, ReplayEffect(c, s, a.replayCall).value);
    } else if a.WorkerDoes? {
      var w := s.workers[a.worker];
      WorkerAccepts(c, s, w, a.call, t.workers[a.worker], WorkerEffect(c, s, w, a.call).value);
      WorkerLeavesWorkers(c, s, w, a.call);
    } else if a.StartWorker? {
      FreshAccepted(c);
    }
  }

  lemma ReplayAccepts(c: Config, s: Sys, call: ReplayCall, t: Sys)
    requires ReplayEffect(c, s, call) == Some(t) && forall id | id in s.db :: Accepts(c.database, s.db[id])
    ensures t.workers == s.workers && forall id | id in t.db :: Accepts(c.database, t.db[id])
  {
    hide Accepts;
  }

  lemma WorkerLeavesWorkers(c: Config, s: Sys, w: Worker, call: Call)
    requires WorkerEffect(c, s, w, call).Some?
    ensures WorkerEffect(c, s, w, call).value.workers == s.workers
  {
  }

  lemma FreshAccepted(c: Config)
    ensures StagedAccepted(c, FRESH)
  {
  }

  lemma {:induction false} RunAccepts(c: Config, actions: seq<Action>)
    requires Run(c, actions).Some?
    ensures Accepted(c, Run(c, actions).value)
  {
    hide Step;
    if actions != [] {
      var front := actions[..|actions| - 1];
      RunAccepts(c, front);
      StepAccepts(c, Run(c, front).value, actions[|actions| - 1], Run(c, actions).value);
    }
  }

  /**
   However often an event is redelivered, reclaimed, dead-lettered and replayed, a stored row is one of the two
   rows computed from the event as it was produced, and for a well-formed event, or one whose replayed row the
   database refuses, it is the worker's row.
   */
  lemma OneRightRow(c: Config, actions: seq<Action>, id: string)
    requires Run(c, actions).Some? && id in Run(c, actions).value.db
    ensures var s := Run(c, actions).value;
            && id in s.events
            && (s.db[id] == WorkerRow(s.events[id]) || s.db[id] == ReplayRow(s.events[id]))
            && Accepts(c.database, s.db[id])
            && (WellFormed(s.events[id]) || !Accepts(c.database, ReplayRow(s.events[id]))
                ==> s.db[id] == WorkerRow(s.events[id]))
  {
    hide Run, Accepts, WellFormed, WorkerRow, ReplayRow;
    RunKeepsInv(c, actions);
    RunAccepts(c, actions);
    var s := Run(c, actions).value;
    assert RowOk(s, id, s.db[id]);
    ReplayAgreesExactly(s.events[id]);
  }
}
