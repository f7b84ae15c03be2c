/**
 Runs of the pipeline that reach the limits of its promises: an append that returns without appending loses an event,
 and an event that is not well formed can end up with a row the worker would not have written.
 */
module WbScenarios {
  import opened Options
  import opened WbFields
  import opened WbWorker
  import opened WbReplayer
  import opened WbSystem

  lemma RunSnoc(c: Config, actions: seq<Action>, a: Action, s: Sys)
    requires Run(c, actions) == Some(s)
    ensures Run(c, actions + [a]) == Step(c, s, a)
  {
    assert (actions + [a])[..|actions|] == actions;
  }

  /** One more call of the only worker. */
  lemma WorkerMoves(c: Config, actions: seq<Action>, s: Sys, w: Worker, call: Call, w': Worker, u: Sys)
    requires Run(c, actions) == Some(s) && s.workers == map[0 := w]
    requires WorkerNext(c.worker, w, call) == Some(w') && WorkerEffect(c, s, w, call) == Some(u)
    ensures Run(c, actions + [WorkerDoes(0, call)]) == Some(u.(workers := map[0 := w']))
  {
    hide Run, WorkerNext, WorkerEffect;
    RunSnoc(c, actions, WorkerDoes(0, call), s);
    assert s.workers[0 := w'] == map[0 := w'];
  }

  lemma ReplayerMoves(c: Config, actions: seq<Action>, s: Sys, r: Replayer, call: ReplayCall, r': Replayer, u: Sys)
    requires Run(c, actions) == Some(s) && s.replayers == map[0 := r]
    requires ReplayNext(c.replayer, r, call) == Some(r') && ReplayEffect(c, s, call) == Some(u)
    ensures Run(c, actions + [ReplayerDoes(0, call)]) == Some(u.(replayers := map[0 := r']))
  {
    hide Run, ReplayNext, ReplayEffect;
    RunSnoc(c, actions, ReplayerDoes(0, call), s);
    assert s.replayers[0 := r'] == map[0 := r'];
  }

  /** One worker has connected and read one event. */
  function Reading(e: Entry): seq<Action> {
    [] + [Produce(e)] + [StartWorker(0)] + [WorkerDoes(0, Reconnect)] + [WorkerDoes(0, ReadNew([e]))]
  }

  /** It then buffers the event, starts a flush and opens a transaction. */
  function Opening(e: Entry): seq<Action> {
    Reading(e) + [WorkerDoes(0, Take)] + [WorkerDoes(0, FlushStart)] + [WorkerDoes(0, Begin(true))]
  }

  function WithWorker(e: Entry, delivered: set<string>, w: Worker): Sys {
    INITIAL.(events := map[e.id := e.fields], delivered := delivered, pending := delivered, workers := map[0 := w])
  }

  function Opened(e: Entry): Sys {
    WithWorker(e, {e.id}, Worker([], [], [e], true, InTx(Tx(0, 0, map[], []))))
  }

  lemma StartOne(c: Config, e: Entry)
    ensures Run(c, [] + [Produce(e)] + [StartWorker(0)]) == Some(WithWorker(e, {}, FRESH))
  {
    assert Run(c, []) == Some(INITIAL);
    hide Run;
    RunSnoc(c, [], Produce(e), INITIAL);
    RunSnoc(c, [] + [Produce(e)], StartWorker(0), INITIAL.(events := map[e.id := e.fields]));
  }

  lemma ReadEffect(c: Config, e: Entry, w: Worker)
    ensures WorkerEffect(c, WithWorker(e, {}, w), w, ReadNew([e])) == Some(WithWorker(e, {e.id}, w))
  {
    assert Ids([e]) == {e.id} by { assert e in [e]; }
    var s := WithWorker(e, {}, w);
    assert s.delivered + Ids([e]) == {e.id} && s.pending + Ids([e]) == {e.id};
  }

  lemma ReadOne(c: Config, e: Entry)
    ensures Run(c, Reading(e)) == Some(WithWorker(e, {e.id}, Worker([e], [], [], true, Outer)))
  {
    hide Run;
    var a := [] + [Produce(e)] + [StartWorker(0)];
    var up := FRESH.(dbUp := true);
    StartOne(c, e);
    WorkerMoves(c, a, WithWorker(e, {}, FRESH), FRESH, Reconnect, up, WithWorker(e, {}, FRESH));
    ReadEffect(c, e, up);
    WorkerMoves(c, a + [WorkerDoes(0, Reconnect)], WithWorker(e, {}, up), up, ReadNew([e]), up.(inbox := [e]),
                WithWorker(e, {e.id}, up));
  }

  lemma OpenOne(c: Config, e: Entry)
    ensures Run(c, Opening(e)) == Some(Opened(e))
  {
    hide Run, Reading;
    var a := Reading(e);
    var w0, w1 := Worker([e], [], [], true, Outer), Worker([], [], [e], true, Outer);
    var w2, w3 := w1.(phase := Ready(0)), w1.(phase := InTx(Tx(0, 0, map[], [])));
    ReadOne(c, e);
    assert [e][1..] == [] && [] + [e] == [e];
    WorkerMoves(c, a, WithWorker(e, {e.id}, w0), w0, Take, w1, WithWorker(e, {e.id}, w0));
    WorkerMoves(c, a + [WorkerDoes(0, Take)], WithWorker(e, {e.id}, w1), w1, FlushStart, w2, WithWorker(e, {e.id}, w1));
    WorkerMoves(c, a + [WorkerDoes(0, Take)] + [WorkerDoes(0, FlushStart)], WithWorker(e, {e.id}, w2), w2,
                Begin(true), w3, WithWorker(e, {e.id}, w2));
  }

  /** The insert fails, the dead-letter append returns, the worker acknowledges. */
  function Rejecting(e: Entry, error: string, appended: bool): seq<Action> {
    Opening(e) + [WorkerDoes(0, Insert(e.id, WorkerRow(e.fields), InsertFailed(error)))]
    + [WorkerDoes(0, DlqAdd(DlqFields(e, error), true, appended))] + [WorkerDoes(0, Ack(e.id, true))]
  }

  function Rejected(e: Entry, error: string, appended: bool): Sys {
    var s := Opened(e).(pending := {}, workers := map[0 := Worker([], [], [e], true, InTx(Tx(0, 1, map[], [])))]);
    if appended then s.(dlq := map[0 := DlqFields(e, error)], nextPos := 1) else s.(unappended := {e.id})
  }

  lemma RejectOne(c: Config, e: Entry, error: string, appended: bool)
    requires c.worker.dlqOn
    ensures Run(c, Rejecting(e, error, appended)) == Some(Rejected(e, error, appended))
  {
    hide Run, Opening, DlqFields, WorkerRow;
    var tx := Tx(0, 0, map[], []);
    var insert := Insert(e.id, WorkerRow(e.fields), InsertFailed(error));
    var add := DlqAdd(DlqFields(e, error), true, appended);
    var w := Worker([], [], [e], true, InTx(tx));
    var w1, w2 := w.(phase := Failed(tx, error)), w.(phase := SentToDlq(tx));
    var s2 := Rejected(e, error, appended).(pending := {e.id}, workers := map[0 := w2]);
    OpenOne(c, e);
    assert (map[])[0 := DlqFields(e, error)] == map[0 := DlqFields(e, error)];
    assert INITIAL.unappended + {e.id} == {e.id} && s2.pending - {e.id} == {} && s2.dropped + {} == s2.dropped;
    WorkerMoves(c, Opening(e), Opened(e), w, insert, w1, Opened(e));
    WorkerMoves(c, Opening(e) + [WorkerDoes(0, insert)], WithWorker(e, {e.id}, w1), w1, add, w2,
                s2.(workers := map[0 := w1]));
    WorkerMoves(c, Opening(e) + [WorkerDoes(0, insert)] + [WorkerDoes(0, add)], s2, w2, Ack(e.id, true),
                w.(phase := InTx(Tx(0, 1, map[], []))), s2.(pending := {}));
  }

  /** One append that returns without appending is enough to lose any event whose insert fails once. */
  lemma UnappendedIsLost(c: Config, e: Entry, error: string)
    requires c.worker.dlqOn
    ensures Run(c, Rejecting(e, error, false)).Some?
    ensures var s := Run(c, Rejecting(e, error, false)).value;
            && e.id in s.delivered && e.id !in s.pending && e.id !in s.db && !InDlqFrom(s, e.id, 0) && !InDead(s, e.id)
            && e.id !in s.dropped && e.id !in s.reported
  {
    hide Run, Rejecting;
    RejectOne(c, e, error, false);
  }

  /** The commit fails, and the next attempt to flush rejects the event once more. */
  function RejectingTwice(e: Entry, error: string): seq<Action> {
    Rejecting(e, error, true) + [WorkerDoes(0, Commit(CommitFailed, false))] + [WorkerDoes(0, Begin(true))]
    + [WorkerDoes(0, Insert(e.id, WorkerRow(e.fields), InsertFailed(error)))]
    + [WorkerDoes(0, DlqAdd(DlqFields(e, error), true, true))]
  }

  /** One event can have several dead-letter entries: an attempt after a failed commit adds its own. */
  lemma DeadLetteredTwice(c: Config, e: Entry, error: string)
    requires c.worker.dlqOn && c.worker.retryMax >= 1
    ensures Run(c, RejectingTwice(e, error)).Some?
    ensures Run(c, RejectingTwice(e, error)).value.dlq == map[0 := DlqFields(e, error), 1 := DlqFields(e, error)]
  {
    hide Run, Rejecting, DlqFields, WorkerRow;
    var a, s, f := Rejecting(e, error, true), Rejected(e, error, true), DlqFields(e, error);
    var insert := Insert(e.id, WorkerRow(e.fields), InsertFailed(error));
    var w := Worker([], [], [e], true, InTx(Tx(0, 1, map[], [])));
    var tx := Tx(1, 0, map[], []);
    var w1, w2, w3 := w.(phase := Ready(1)), w.(phase := InTx(tx)), w.(phase := Failed(tx, error));
    RejectOne(c, e, error, true);
    WorkerMoves(c, a, s, w, Commit(CommitFailed, false), w1, s);
    a := a + [WorkerDoes(0, Commit(CommitFailed, false))];
    WorkerMoves(c, a, s.(workers := map[0 := w1]), w1, Begin(true), w2, s.(workers := map[0 := w1]));
    a := a + [WorkerDoes(0, Begin(true))];
    WorkerMoves(c, a, s.(workers := map[0 := w2]), w2, insert, w3, s.(workers := map[0 := w2]));
    a := a + [WorkerDoes(0, insert)];
    assert s.dlq[1 := f] == map[0 := f, 1 := f];
    WorkerMoves(c, a, s.(workers := map[0 := w3]), w3, DlqAdd(f, true, true), w.(phase := SentToDlq(tx)),
                s.(workers := map[0 := w3], dlq := map[0 := f, 1 := f], nextPos := 2));
  }

  /** A replayer then reads the dead-letter entry and stores it. */
  function Replaying(e: Entry, error: string): seq<Action> {
    Rejecting(e, error, true) + [StartReplayer(0)] + [ReplayerDoes(0, Reopen)]
    + [ReplayerDoes(0, ReadDlq(0, DlqFields(e, error)))]
    + [ReplayerDoes(0, Store(e.id, ReplayRow(e.fields), Inserted, true))]
  }

  lemma ReplayOne(c: Config, e: Entry, error: string)
    requires c.worker.dlqOn && Accepts(c.database, ReplayRow(e.fields))
    ensures Run(c, Replaying(e, error)).Some?
    ensures var s := Run(c, Replaying(e, error)).value;
            s.events == map[e.id := e.fields] && s.db == map[e.id := ReplayRow(e.fields)]
  {
    hide Run, Rejecting, DlqFields, ReplayRow, OrigId, Accepts;
    var f := DlqFields(e, error);
    var s := Rejected(e, error, true);
    var a := Rejecting(e, error, true) + [StartReplayer(0)];
    var r, r1 := Replayer(true, Idle), Replayer(true, Have(0, f));
    RejectOne(c, e, error, true);
    DlqKeepsEvent(e, error, NatText(0));
    ReplayRowOfVisible(f, e.fields);
    RunSnoc(c, Rejecting(e, error, true), StartReplayer(0), s);
    ReplayerMoves(c, a, s.(replayers := map[0 := UNSTARTED]), UNSTARTED, Reopen, r,
                  s.(replayers := map[0 := UNSTARTED]));
    ReplayerMoves(c, a + [ReplayerDoes(0, Reopen)], s.(replayers := map[0 := r]), r, ReadDlq(0, f), r1,
                  s.(replayers := map[0 := r]));
    ReplayerMoves(c, a + [ReplayerDoes(0, Reopen)] + [ReplayerDoes(0, ReadDlq(0, f))],
                  s.(replayers := map[0 := r1]), r1,
                  Store(e.id, ReplayRow(e.fields), Inserted, true), Replayer(true, Settled(0)),
                  s.(replayers := map[0 := r1], db := map[e.id := ReplayRow(e.fields)]));
  }

  ghost predicate StoresWorkerRow(c: Config, actions: seq<Action>, e: Entry) {
    Run(c, actions).Some? ==>
      var s := Run(c, actions).value;
      e.id in s.db && e.id in s.events && s.events[e.id] == e.fields ==> s.db[e.id] == WorkerRow(e.fields)
  }

  /**
   Every run that stores an event stores the worker's row, exactly when the event is well formed or the database
   refuses the row that a replay would insert for it.
   */
  lemma RightRowExactly(c: Config, e: Entry)
    requires c.worker.dlqOn
    ensures (forall actions :: StoresWorkerRow(c, actions, e))
            <==> WellFormed(e.fields) || !Accepts(c.database, ReplayRow(e.fields))
  {
    hide Run, WellFormed, WorkerRow, ReplayRow, Accepts;
    if WellFormed(e.fields) || !Accepts(c.database, ReplayRow(e.fields)) {
      forall actions ensures StoresWorkerRow(c, actions, e) {
        if Run(c, actions).Some? && e.id in Run(c, actions).value.db { OneRightRow(c, actions, e.id); }
      }
    } else {
      ReplayOne(c, e, "");
      ReplayAgreesExactly(e.fields);
      assert !StoresWorkerRow(c, Replaying(e, ""), e);
    }
  }

  /** A field given twice with different values: the replay stores the first one, the worker would store the last. */
  lemma RepeatedTypeReplaysWrong(c: Config, id: string)
    requires c.worker.dlqOn
    requires c.database.takes(ReplayRow([("type", "join"), ("type", "leave")]))
    ensures var e := Entry(id, [("type", "join"), ("type", "leave")]);
            var run := Run(c, Replaying(e, ""));
            run.Some? && id in run.value.db && run.value.db[id].kind == "join" && WorkerRow(e.fields).kind == "leave"
  {
    var f: Fields := [("type", "join"), ("type", "leave")];
    var e := Entry(id, f);
    TwiceGiven(("type", "join"), ("type", "leave"));
    hide Run, FirstWins, LastWins, ParseInteger, Replaying;
    ReplayOne(c, e, "");
  }

  lemma TwiceGiven(a: (string, string), b: (string, string))
    requires a.0 == b.0
    ensures FirstWins([a, b]) == map[a.0 := a.1] && LastWins([a, b]) == map[a.0 := b.1]
  {
    assert [a, b][..1] == [a] && [a][..0] == [];
    FirstWinsPair(a);
    assert LastWins([a]) == map[a.0 := a.1];
    assert FirstWins([a, b]) == FirstWins([a]);
    assert LastWins([a, b]) == LastWins([a])[b.0 := b.1];
  }

  /** An uuid field that does not cast: the event is not well formed, but no run stores a wrong row for it. */
  lemma UncastableNeverReplayed(c: Config, id: string, text: string)
    requires c.worker.dlqOn && text != "" && !IsUuidText(text) && !c.database.casts(text)
    ensures var e := Entry(id, [("user_id", text)]);
            !WellFormed(e.fields) && forall actions :: StoresWorkerRow(c, actions, e)
  {
    var f: Fields := [("user_id", text)];
    FirstWinsPair(("user_id", text));
    assert ReplayRow(f).user == text;
    assert FirstAt(f, 0) && f[0].0 in UUID_FIELDS;
    hide Run, ReplayRow, WorkerRow;
    RightRowExactly(c, Entry(id, f));
  }

  /** The worker's own rows never fail on an uuid. */
  lemma WorkerRowCasts(c: Config, f: Fields)
    ensures Accepts(c.database, WorkerRow(f)) <==> c.database.takes(WorkerRow(f))
  {
    hide LastWins, IsUuidText;
  }
}
