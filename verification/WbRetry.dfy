/**
 The life of a dead-lettered event over whole runs of the pipeline: the copies of it that replayers append, the sleeps
 before them, and its end in the dead stream when it never stores. Workers may dead-letter an event any number of
 times; each time is the root of a chain of its own.
 */
module WbRetry {
  import opened Options
  import opened WbFields
  import opened WbWorker
  import opened WbReplayer
  import opened WbSystem

  /** A copy appended by a replayer: back into the dead-letter stream after a sleep, or into the dead stream. */
  datatype Hop = Requeued(delay: nat, fields: Fields) | Buried(fields: Fields)

  /** What a failed entry becomes. */
  function HopOf(c: ReplayerConfig, f: Fields, orig: string, error: string): Hop {
    if Exhausted(c, f) then Buried(DeadFields(f, orig, error))
    else Requeued(BackoffMs(c.backoffMs, RetryCount(f)), RequeueFields(f, orig, RetryCount(f), error))
  }

  ghost predicate IsHop(c: ReplayerConfig, f: Fields, orig: string, h: Hop) {
    exists error :: h == HopOf(c, f, orig, error)
  }

  /** The entry from which hop i starts. */
  function Before(f: Fields, hops: seq<Hop>, i: nat): Fields
    requires i <= |hops|
  {
    if i == 0 then f else hops[i - 1].fields
  }

  /** Hop i starts from the copy before it, which was not buried. */
  ghost predicate HopAt(c: ReplayerConfig, f: Fields, orig: string, hops: seq<Hop>, i: nat)
    requires i < |hops|
  {
    IsHop(c, Before(f, hops, i), orig, hops[i]) && (i > 0 ==> hops[i - 1].Requeued?)
  }

  ghost predicate IsChain(c: ReplayerConfig, f: Fields, orig: string, hops: seq<Hop>) {
    forall i | 0 <= i < |hops| :: HopAt(c, f, orig, hops, i)
  }

  function Requeues(c: ReplayerConfig, f: Fields): nat {
    if Exhausted(c, f) then 0 else c.retryMax - 1 - RetryCount(f)
  }

  lemma RetryCountInRange(f: Fields)
    ensures INT_MIN <= RetryCount(f) <= INT_MAX
  {
  }

  lemma HopKeeps(c: ReplayerConfig, f: Fields, orig: string, h: Hop)
    requires IsHop(c, f, orig, h) && c.retryMax <= INT_MAX
    ensures h.Requeued? <==> !Exhausted(c, f)
    ensures h.Requeued? ==>
              h.delay == BackoffMs(c.backoffMs, RetryCount(f)) && RetryCount(h.fields) == RetryCount(f) + 1
    ensures Visible(h.fields) == Visible(f) && forall x :: OrigId(h.fields, x) == orig
  {
    hide FirstWins, RetryCount, OrigId, Visible, RequeueFields, DeadFields, BackoffMs;
    var error :| h == HopOf(c, f, orig, error);
    RetryCountInRange(f);
    forall x ensures OrigId(h.fields, x) == orig && Visible(h.fields) == Visible(f) {
      if Exhausted(c, f) {
        DeadKeepsEvent(f, orig, error, x);
      } else {
        RequeueKeepsEvent(f, orig, RetryCount(f), error, x);
      }
    }
    if !Exhausted(c, f) { RequeueKeepsEvent(f, orig, RetryCount(f), error, ""); }
    assert OrigId(h.fields, "") == orig;
  }

  /** What hop i of a chain from f must be. */
  ghost predicate HopFits(c: ReplayerConfig, f: Fields, orig: string, h: Hop, i: nat) {
    && i <= Requeues(c, f)
    && (if i < Requeues(c, f)
        then && h.Requeued? && RetryCount(h.fields) == RetryCount(f) + 1 + i
             && h.delay == BackoffMs(c.backoffMs, RetryCount(f) + i)
        else h.Buried?)
    && Visible(h.fields) == Visible(f) && forall x :: OrigId(h.fields, x) == orig
  }

  /**
   The hops of a chain: first the requeues, as many as the retry limit leaves, with counts rising by one and the sleep
   of each count, then the burial; none of them changes the event.
   */
  lemma {:induction false} ChainShape(c: ReplayerConfig, f: Fields, orig: string, hops: seq<Hop>, i: nat)
    requires IsChain(c, f, orig, hops) && c.retryMax <= INT_MAX && i < |hops|
    ensures HopFits(c, f, orig, hops[i], i)
  {
    hide FirstWins, RetryCount, OrigId, Visible, IsHop, BackoffMs, IsChain;
    ChainAt(c, f, orig, hops, i);
    HopKeeps(c, Before(f, hops, i), orig, hops[i]);
    if i > 0 {
      ChainShape(c, f, orig, hops, i - 1);
    }
  }

  lemma ChainAt(c: ReplayerConfig, f: Fields, orig: string, hops: seq<Hop>, i: nat)
    requires IsChain(c, f, orig, hops) && i < |hops|
    ensures HopAt(c, f, orig, hops, i)
  {
  }

  lemma ChainSnoc(c: ReplayerConfig, f: Fields, orig: string, hops: seq<Hop>, h: Hop)
    requires IsChain(c, f, orig, hops) && IsHop(c, Before(f, hops, |hops|), orig, h)
    requires hops != [] ==> hops[|hops| - 1].Requeued?
    ensures IsChain(c, f, orig, hops + [h])
  {
    hide IsHop;
    var more := hops + [h];
    forall i | 0 <= i < |more| ensures HopAt(c, f, orig, more, i) {
      if i < |hops| { assert HopAt(c, f, orig, hops, i); }
    }
  }

  // ---------------------------------------------------------------------------
  // A book kept along a run: what became of every dead-lettering
  // ---------------------------------------------------------------------------

  /** The entry an action adds to the dead-letter stream. */
  function AddedEntry(a: Action): Option<Fields> {
    if a.WorkerDoes? && a.call.DlqAdd? && a.call.appended then Some(a.call.fields)
    else if a.ReplayerDoes? && a.replayCall.Requeue? && a.replayCall.appended then Some(a.replayCall.fields)
    else None
  }

  function HopMade(a: Action): Option<Hop> {
    if !a.ReplayerDoes? then None
    else if a.replayCall.Requeue? && a.replayCall.appended then
      Some(Requeued(a.replayCall.delayMs, a.replayCall.fields))
    else if a.replayCall.DeadAdd? && a.replayCall.appended then Some(Buried(a.replayCall.fields))
    else None
  }

  /** Where an entry comes from: position and fields of a worker's append, and the hops from there to the entry. */
  datatype Stem = Stem(root: Position, letter: Fields, path: seq<Hop>)

  /**
   seen: entries read by a replayer. stems: of every entry ever added. hops: per root, the copies that replayers
   appended, in order. newest: per root, the entry added last. lost: roots of which an entry in work was let go without
   a copy.
   */
  datatype Book = Book(
    seen: set<Position>, stems: map<Position, Stem>, hops: map<Position, seq<Hop>>, newest: map<Position, Position>,
    lost: set<Position>)

  const EMPTY := Book({}, map[], map[], map[], {})

  predicate Works(r: Replayer) { r.phase.Have? || r.phase.Unstored? }

  /** The stem of the entry that a replayer works on. */
  function HeldStem(b: Book, s: Sys, k: nat): Option<Stem> {
    if k in s.replayers && Works(s.replayers[k]) && s.replayers[k].phase.at in b.stems
    then Some(b.stems[s.replayers[k].phase.at])
    else None
  }

  function NoteLetter(b: Book, p: Position, f: Fields): Book {
    b.(stems := b.stems[p := Stem(p, f, [])], hops := b.hops[p := []], newest := b.newest[p := p])
  }

  function NoteHop(b: Book, p: Position, st: Stem, h: Hop): Book {
    var made := if st.root in b.hops then b.hops[st.root] else [];
    var noted := b.(hops := b.hops[st.root := made + [h]]);
    if h.Buried? then noted
    else noted.(stems := b.stems[p := st.(path := st.path + [h])], newest := b.newest[st.root := p])
  }

  /** With this action the replayer drops what it works on: stored, broken off, not appended, or restarted. */
  predicate LetsGo(a: Action) {
    || a.StartReplayer?
    || (a.ReplayerDoes? && a.replayCall.Store? && !a.replayCall.stored.InsertFailed?)
    || (a.ReplayerDoes? && (a.replayCall.Requeue? || a.replayCall.DeadAdd?) && !a.replayCall.appended)
  }

  function Note(b: Book, s: Sys, a: Action): Book {
    if a.WorkerDoes? then (if AddedEntry(a).Some? then NoteLetter(b, s.nextPos, a.call.fields) else b)
    else if Reads(a) then b.(seen := b.seen + {a.replayCall.at})
    else if !a.ReplayerDoes? && !a.StartReplayer? then b
    else
      var st := HeldStem(b, s, a.replayer);
      if st.None? then b
      else if HopMade(a).Some? then NoteHop(b, s.nextPos, st.value, HopMade(a).value)
      else if LetsGo(a) then b.(lost := b.lost + {st.value.root})
      else b
  }

  function BookOf(c: Config, actions: seq<Action>): Book {
    if actions == [] then EMPTY else
      var front := actions[..|actions| - 1];
      if Run(c, front).None? then EMPTY
      else Note(BookOf(c, front), Run(c, front).value, actions[|actions| - 1])
  }

  predicate Reads(a: Action) {
    a.ReplayerDoes? && a.replayCall.ReadDlq?
  }

  /** The consumer group hands every dead-letter entry out once. */
  ghost predicate ReadsOnce(actions: seq<Action>) {
    forall i, j | 0 <= i < j < |actions| && Reads(actions[i]) && Reads(actions[j]) ::
      actions[i].replayCall.at != actions[j].replayCall.at
  }

  /** The fields of an entry with this stem. */
  function Tip(st: Stem): Fields {
    Before(st.letter, st.path, |st.path|)
  }

  function Orig(st: Stem): string {
    OrigId(st.letter, "")
  }

  // ---------------------------------------------------------------------------
  // What a step does to the dead-letter stream
  // ---------------------------------------------------------------------------

  lemma StepShape(c: Config, s: Sys, a: Action, t: Sys)
    requires Step(c, s, a) == Some(t)
    ensures AddedEntry(a).Some? ==> t.dlq == s.dlq[s.nextPos := AddedEntry(a).value] && t.nextPos == s.nextPos + 1
    ensures AddedEntry(a).None? ==>
              t.nextPos == s.nextPos && forall q | q in t.dlq :: q in s.dlq && t.dlq[q] == s.dlq[q]
    ensures AddedEntry(a).None? && !(a.ReplayerDoes? && a.replayCall.AckDlq?) ==> t.dlq == s.dlq
    ensures a.ReplayerDoes? && a.replayCall.AckDlq? ==> forall q | q in s.dlq && q != a.replayCall.at :: q in t.dlq
  {
    hide WorkerNext, ReplayNext, Accepts, WorkerEffect, ReplayEffect;
    if a.WorkerDoes? {
      WorkerShape(c, s, s.workers[a.worker], a.call, WorkerEffect(c, s, s.workers[a.worker], a.call).value);
    } else if a.ReplayerDoes? {
      ReplayShape(c, s, a.replayCall, ReplayEffect(c, s, a.replayCall).value);
    }
  }

  lemma WorkerShape(c: Config, s: Sys, w: Worker, call: Call, t: Sys)
    requires WorkerEffect(c, s, w, call) == Some(t)
    ensures if call.DlqAdd? && call.appended then t.dlq == s.dlq[s.nextPos := call.fields] && t.nextPos == s.nextPos + 1
            else t.dlq == s.dlq && t.nextPos == s.nextPos
  {
    hide Accepts;
  }

  lemma ReplayShape(c: Config, s: Sys, call: ReplayCall, t: Sys)
    requires ReplayEffect(c, s, call) == Some(t)
    ensures if call.Requeue? && call.appended then
              t.dlq == s.dlq[s.nextPos := call.fields] && t.nextPos == s.nextPos + 1
            else if call.AckDlq? && call.applied then t.dlq == s.dlq - {call.at} && t.nextPos == s.nextPos
            else t.dlq == s.dlq && t.nextPos == s.nextPos
  {
    hide Accepts;
  }

  lemma StepReplayers(c: Config, s: Sys, a: Action, t: Sys)
    requires Step(c, s, a) == Some(t)
    ensures a.ReplayerDoes? ==> a.replayer in s.replayers
                                && ReplayNext(c.replayer, s.replayers[a.replayer], a.replayCall).Some?
                                && var r := ReplayNext(c.replayer, s.replayers[a.replayer], a.replayCall).value;
                                t.replayers == s.replayers[a.replayer := r]
    ensures a.StartReplayer? ==> t.replayers == s.replayers[a.replayer := UNSTARTED]
    ensures !a.ReplayerDoes? && !a.StartReplayer? ==> t.replayers == s.replayers
    ensures a.ReplayerDoes? && a.replayCall.ReadDlq? ==>
              a.replayCall.at in s.dlq && s.dlq[a.replayCall.at] == a.replayCall.fields
  {
    hide WorkerNext, ReplayNext, Accepts, WorkerEffect, ReplayEffect;
    if a.WorkerDoes? {
      WorkerLeaves(c, s, s.workers[a.worker], a.call);
    } else if a.ReplayerDoes? {
      ReplayLeaves(c, s, a.replayCall);
    }
  }

  lemma WorkerLeaves(c: Config, s: Sys, w: Worker, call: Call)
    requires WorkerEffect(c, s, w, call).Some?
    ensures WorkerEffect(c, s, w, call).value.replayers == s.replayers
  {
    hide Accepts;
  }

  lemma ReplayLeaves(c: Config, s: Sys, call: ReplayCall)
    requires ReplayEffect(c, s, call).Some?
    ensures ReplayEffect(c, s, call).value.replayers == s.replayers
    ensures call.ReadDlq? ==> call.at in s.dlq && s.dlq[call.at] == call.fields
  {
    hide Accepts;
  }

  lemma HopIsOfHeld(c: Config, r: Replayer, call: ReplayCall, h: Hop)
    requires ReplayNext(c.replayer, r, call).Some? && HopMade(ReplayerDoes(0, call)) == Some(h)
    ensures r.phase.Unstored? && !Works(ReplayNext(c.replayer, r, call).value)
    ensures IsHop(c.replayer, r.phase.fields, EventOf(r.phase.at, r.phase.fields), h)
    ensures forall x :: OrigId(h.fields, x) == EventOf(r.phase.at, r.phase.fields)
  {
    hide FirstWins, OrigId, RequeueFields, DeadFields, RetryCount, ReplayRow, BackoffMs;
    var Unstored(at, f, error) := r.phase;
    var orig := EventOf(at, f);
    assert h == HopOf(c.replayer, f, orig, error);
    forall x ensures OrigId(h.fields, x) == orig {
      DeadKeepsEvent(f, orig, error, x);
      RequeueKeepsEvent(f, orig, RetryCount(f), error, x);
    }
  }

  /** A replayer works on what it has just read, or goes on with what it had; it stops with a hop or by letting go. */
  lemma WorkGoesOn(c: Config, r: Replayer, call: ReplayCall)
    requires ReplayNext(c.replayer, r, call).Some?
    ensures var r', a := ReplayNext(c.replayer, r, call).value, ReplayerDoes(0, call);
            && (call.ReadDlq? ==> r.phase.Idle? && r'.phase == Have(call.at, call.fields))
            && (!call.ReadDlq? && Works(r') ==>
                  Works(r) && r'.phase.at == r.phase.at && r'.phase.fields == r.phase.fields)
            && (Works(r) ==> (Works(r') <==> HopMade(a).None? && !LetsGo(a)))
            && (!r'.phase.Idle? && !call.ReadDlq? ==> !r.phase.Idle? && r'.phase.at == r.phase.at)
            && (call.AckDlq? ==> r.phase == Settled(call.at))
  {
    hide OrigId, WorkerRow, ReplayRow, RequeueFields, DeadFields, BackoffMs, RetryCount;
  }

  // ---------------------------------------------------------------------------
  // Every entry stems from a dead-lettering, in every run
  // ---------------------------------------------------------------------------

  /** The path is a chain of requeues, and whoever works on the entry takes it for the letter's event. */
  ghost predicate StemOk(c: ReplayerConfig, st: Stem) {
    && IsChain(c, st.letter, Orig(st), st.path)
    && (st.path != [] ==> st.path[|st.path| - 1].Requeued?)
    && (forall x :: OrigId(Tip(st), x) == Orig(st))
  }

  ghost predicate Rooted(b: Book, st: Stem) {
    st.root in b.stems && b.stems[st.root] == Stem(st.root, st.letter, []) && st.root in b.hops
  }

  predicate Grown(b: Book, q: Position, f: Fields) {
    q in b.stems && f == Tip(b.stems[q])
  }

  ghost predicate StemsOk(c: Config, b: Book, s: Sys) {
    && (forall q | q in b.stems :: q < s.nextPos && StemOk(c.replayer, b.stems[q]) && Rooted(b, b.stems[q]))
    && (forall q | q in s.dlq :: Grown(b, q, s.dlq[q]))
    && (forall k | k in s.replayers && Works(s.replayers[k]) ::
          Grown(b, s.replayers[k].phase.at, s.replayers[k].phase.fields))
    && (forall q | q in b.hops :: q in b.stems)
  }

  lemma LetterStemOk(c: Config, s: Sys, a: Action, t: Sys, p: Position)
    requires Step(c, s, a) == Some(t) && a.WorkerDoes? && AddedEntry(a).Some?
    ensures StemOk(c.replayer, Stem(p, a.call.fields, []))
  {
    hide WorkerEffect, FirstWins, OrigId, DlqFields, WorkerRow;
    var w := s.workers[a.worker];
    var e := w.buf[w.phase.tx.next];
    forall x ensures OrigId(a.call.fields, x) == OrigId(a.call.fields, "") {
      DlqKeepsEvent(e, w.phase.error, x);
      DlqKeepsEvent(e, w.phase.error, "");
    }
  }

  lemma HopStemOk(c: ReplayerConfig, st: Stem, h: Hop)
    requires StemOk(c, st) && h.Requeued? && IsHop(c, Tip(st), Orig(st), h)
    requires forall x :: OrigId(h.fields, x) == Orig(st)
    ensures StemOk(c, st.(path := st.path + [h]))
  {
    hide IsHop, IsChain, OrigId;
    ChainSnoc(c, st.letter, Orig(st), st.path, h);
  }

  lemma LetterBook(c: ReplayerConfig, b: Book, p: Position, f: Fields)
    requires forall q | q in b.stems :: q < p && StemOk(c, b.stems[q]) && Rooted(b, b.stems[q])
    requires StemOk(c, Stem(p, f, []))
    ensures var b' := NoteLetter(b, p, f);
            && (forall q | q in b'.stems :: q < p + 1 && StemOk(c, b'.stems[q]) && Rooted(b', b'.stems[q]))
            && (forall q | q in b.stems :: q in b'.stems && b'.stems[q] == b.stems[q])
            && Grown(b', p, f)
  {
    hide StemOk;
  }

  lemma LetterStems(c: Config, b: Book, s: Sys, a: Action, t: Sys)
    requires Step(c, s, a) == Some(t) && a.WorkerDoes? && AddedEntry(a).Some? && StemsOk(c, b, s)
    ensures StemsOk(c, Note(b, s, a), t)
  {
    hide Step, StemOk, Rooted, ReplayNext, Tip, OrigId;
    StepShape(c, s, a, t);
    StepReplayers(c, s, a, t);
    LetterStemOk(c, s, a, t, s.nextPos);
    LetterBook(c.replayer, b, s.nextPos, a.call.fields);
  }

  /** A replayer's hop, seen from the stem of the entry it works on. */
  lemma HopFromStem(c: Config, b: Book, s: Sys, a: Action, t: Sys)
    requires Step(c, s, a) == Some(t) && HopMade(a).Some? && StemsOk(c, b, s)
    ensures HeldStem(b, s, a.replayer).Some?
    ensures var st, h := HeldStem(b, s, a.replayer).value, HopMade(a).value;
            && StemOk(c.replayer, st) && Rooted(b, st)
            && IsHop(c.replayer, Tip(st), Orig(st), h)
            && forall x :: OrigId(h.fields, x) == Orig(st)
    ensures a.replayer in t.replayers && !Works(t.replayers[a.replayer])
  {
    hide Step, IsHop, IsChain, OrigId, ReplayNext, Tip;
    StepReplayers(c, s, a, t);
    HopIsOfHeld(c, s.replayers[a.replayer], a.replayCall, HopMade(a).value);
  }

  /** Noting a hop adds one sound stem at most and keeps the others. */
  lemma HopBook(c: ReplayerConfig, b: Book, p: Position, st: Stem, h: Hop)
    requires forall q | q in b.stems :: q < p && StemOk(c, b.stems[q]) && Rooted(b, b.stems[q])
    requires StemOk(c, st) && Rooted(b, st)
    requires h.Requeued? ==> StemOk(c, st.(path := st.path + [h]))
    ensures var b' := NoteHop(b, p, st, h);
            && (forall q | q in b'.stems :: q in b.stems || (h.Requeued? && q == p))
            && (forall q | q in b'.stems :: StemOk(c, b'.stems[q]) && Rooted(b', b'.stems[q]))
            && (forall q | q in b.stems :: q in b'.stems && b'.stems[q] == b.stems[q])
            && (forall q | q in b'.hops :: q in b.hops || q == st.root)
            && (h.Requeued? ==> Grown(b', p, h.fields))
  {
    hide StemOk;
  }

  /** After a hop its replayer works on nothing, the others go on as before, and only a requeue adds an entry. */
  lemma AfterHop(c: Config, b: Book, s: Sys, a: Action, t: Sys)
    requires Step(c, s, a) == Some(t) && HopMade(a).Some? && StemsOk(c, b, s)
    ensures var h := HopMade(a).value;
            && (forall q | q in t.dlq ::
                  (q in s.dlq && t.dlq[q] == s.dlq[q]) || (h.Requeued? && q == s.nextPos && t.dlq[q] == h.fields))
            && t.nextPos == s.nextPos + (if h.Requeued? then 1 else 0)
    ensures forall k | k in t.replayers && Works(t.replayers[k]) ::
              k in s.replayers && t.replayers[k] == s.replayers[k] && k != a.replayer
  {
    hide Step, StemsOk, ReplayNext, IsHop, OrigId;
    StepShape(c, s, a, t);
    StepReplayers(c, s, a, t);
    HopFromStem(c, b, s, a, t);
  }

  lemma HopStems(c: Config, b: Book, s: Sys, a: Action, t: Sys)
    requires Step(c, s, a) == Some(t) && HopMade(a).Some? && StemsOk(c, b, s)
    ensures StemsOk(c, Note(b, s, a), t)
  {
    hide Step, StemOk, IsHop, ReplayNext, Tip, OrigId, NoteHop;
    AfterHop(c, b, s, a, t);
    HopFromStem(c, b, s, a, t);
    var st, h := HeldStem(b, s, a.replayer).value, HopMade(a).value;
    if h.Requeued? { HopStemOk(c.replayer, st, h); }
    HopBook(c.replayer, b, s.nextPos, st, h);
  }

  /** Other actions add no entry, and whoever works afterwards did so before or has just read. */
  lemma AfterOther(c: Config, s: Sys, a: Action, t: Sys)
    requires Step(c, s, a) == Some(t) && HopMade(a).None? && AddedEntry(a).None?
    ensures t.nextPos == s.nextPos && forall q | q in t.dlq :: q in s.dlq && t.dlq[q] == s.dlq[q]
    ensures forall k | k in t.replayers && Works(t.replayers[k]) && !(Reads(a) && a.replayer == k) ::
              && k in s.replayers && Works(s.replayers[k])
              && t.replayers[k].phase.at == s.replayers[k].phase.at
              && t.replayers[k].phase.fields == s.replayers[k].phase.fields
    ensures Reads(a) ==> && a.replayer in t.replayers && a.replayCall.at in s.dlq
                         && t.replayers[a.replayer].phase == Have(a.replayCall.at, s.dlq[a.replayCall.at])
  {
    hide Step, ReplayNext;
    StepShape(c, s, a, t);
    StepReplayers(c, s, a, t);
    if a.ReplayerDoes? { WorkGoesOn(c, s.replayers[a.replayer], a.replayCall); }
  }

  lemma OtherStems(c: Config, b: Book, s: Sys, a: Action, t: Sys)
    requires Step(c, s, a) == Some(t) && HopMade(a).None? && AddedEntry(a).None? && StemsOk(c, b, s)
    ensures StemsOk(c, Note(b, s, a), t)
  {
    hide Step, StemOk, ReplayNext, Tip, OrigId, LetsGo;
    AfterOther(c, s, a, t);
  }

  lemma StepStems(c: Config, b: Book, s: Sys, a: Action, t: Sys)
    requires Step(c, s, a) == Some(t) && StemsOk(c, b, s)
    ensures StemsOk(c, Note(b, s, a), t)
  {
    hide Step, StemsOk, Note;
    if HopMade(a).Some? {
      HopStems(c, b, s, a, t);
    } else if AddedEntry(a).Some? {
      LetterStems(c, b, s, a, t);
    } else {
      OtherStems(c, b, s, a, t);
    }
  }

  lemma {:induction false} RunStems(c: Config, actions: seq<Action>)
    requires Run(c, actions).Some?
    ensures StemsOk(c, BookOf(c, actions), Run(c, actions).value)
  {
    if actions != [] {
      hide Step, StemsOk, Note;
      var front := actions[..|actions| - 1];
      RunStems(c, front);
      StepStems(c, BookOf(c, front), Run(c, front).value, actions[|actions| - 1], Run(c, actions).value);
    }
  }

  /**
   In every run, every copy that a replayer appends belongs to the chain of some dead-lettering: with n hops between
   that dead-lettering and the entry it copies, it is the hop that place n of the chain calls for. The sleep is that of
   the letter's count plus n, the copy carries the next count, the event id and the visible fields, and the copy is a
   burial exactly when the limit leaves no requeue.
   */
  lemma RetryChain(c: Config, actions: seq<Action>, j: nat)
    requires Run(c, actions).Some? && j < |actions| && HopMade(actions[j]).Some? && c.replayer.retryMax <= INT_MAX
    ensures Run(c, actions[..j]).Some?
    ensures var b := BookOf(c, actions[..j]);
            var st := HeldStem(b, Run(c, actions[..j]).value, actions[j].replayer);
            && st.Some? && Rooted(b, st.value)
            && HopFits(c.replayer, st.value.letter, Orig(st.value), HopMade(actions[j]).value, |st.value.path|)
  {
    hide Run, Step, BookOf, HopFits, IsChain, IsHop, StemsOk, OrigId;
    StepAt(c, actions, j);
    var b, s := BookOf(c, actions[..j]), Run(c, actions[..j]).value;
    RunStems(c, actions[..j]);
    HopFromStem(c, b, s, actions[j], Run(c, actions[..j + 1]).value);
    var st, h := HeldStem(b, s, actions[j].replayer).value, HopMade(actions[j]).value;
    ChainSnoc(c.replayer, st.letter, Orig(st), st.path, h);
    ChainShape(c.replayer, st.letter, Orig(st), st.path + [h], |st.path|);
  }

  // ---------------------------------------------------------------------------
  // One line per dead-lettering, when entries are handed out once
  // ---------------------------------------------------------------------------

  ghost predicate Finished(b: Book, root: Position)
    requires root in b.hops
  {
    b.hops[root] != [] && b.hops[root][|b.hops[root]| - 1].Buried?
  }

  /** The hops of the root are a chain from its letter that reaches the newest entry, or one burial further. */
  ghost predicate RootOk(c: ReplayerConfig, b: Book, root: Position)
    requires root in b.hops
  {
    && root in b.stems && root in b.newest && b.newest[root] in b.stems
    && IsChain(c, b.stems[root].letter, Orig(b.stems[root]), b.hops[root])
    && b.stems[b.newest[root]].root == root
    && (!Finished(b, root) ==> b.stems[b.newest[root]].path == b.hops[root])
  }

  /** The newest entry of its root, which is not buried. */
  predicate IsNewest(b: Book, q: Position) {
    && q in b.stems && b.stems[q].root in b.hops && b.stems[q].root in b.newest
    && b.newest[b.stems[q].root] == q && b.hops[b.stems[q].root] == b.stems[q].path
  }

  /** Waiting entries and those in work are the newest of their roots, and no entry is in work twice. */
  ghost predicate OnTrack(c: Config, b: Book, s: Sys) {
    && (forall root | root in b.hops :: RootOk(c.replayer, b, root))
    && (forall q | q in s.dlq && q !in b.seen :: IsNewest(b, q))
    && (forall k | k in s.replayers && Works(s.replayers[k]) :: IsNewest(b, s.replayers[k].phase.at))
    && (forall k, m | k in s.replayers && m in s.replayers && Works(s.replayers[k]) && Works(s.replayers[m])
                      && s.replayers[k].phase.at == s.replayers[m].phase.at :: k == m)
  }

  ghost predicate SeenOk(b: Book, s: Sys) {
    && (forall q | q in b.seen :: q < s.nextPos)
    && (forall k | k in s.replayers && !s.replayers[k].phase.Idle? :: s.replayers[k].phase.at in b.seen)
  }

  lemma SeenKeeps(c: Config, b: Book, s: Sys, a: Action, t: Sys)
    requires Step(c, s, a) == Some(t) && StemsOk(c, b, s) && SeenOk(b, s)
    ensures SeenOk(Note(b, s, a), t)
  {
    hide Step, StemOk, ReplayNext, Rooted, Tip;
    StepShape(c, s, a, t);
    StepReplayers(c, s, a, t);
    if a.ReplayerDoes? { WorkGoesOn(c, s.replayers[a.replayer], a.replayCall); }
  }

  /** A new letter does not touch the other roots. */
  lemma LetterApart(c: ReplayerConfig, b: Book, p: Position, f: Fields, root: Position)
    requires p !in b.stems && root in b.hops && root != p && RootOk(c, b, root)
    ensures RootOk(c, NoteLetter(b, p, f), root)
  {
    hide IsChain, OrigId;
  }

  lemma LetterLeavesNewest(b: Book, p: Position, f: Fields, q: Position)
    requires p !in b.stems && p !in b.hops && IsNewest(b, q)
    ensures IsNewest(NoteLetter(b, p, f), q)
  {
  }

  lemma LetterTrack(c: Config, b: Book, s: Sys, a: Action, t: Sys)
    requires Step(c, s, a) == Some(t) && a.WorkerDoes? && AddedEntry(a).Some?
    requires StemsOk(c, b, s) && SeenOk(b, s) && OnTrack(c, b, s)
    ensures OnTrack(c, Note(b, s, a), t)
  {
    hide Step, RootOk, IsNewest, StemOk, Rooted, Tip;
    StepShape(c, s, a, t);
    StepReplayers(c, s, a, t);
    var p, f, b' := s.nextPos, a.call.fields, Note(b, s, a);
    assert p !in b.stems && p !in b.hops && p !in b.seen;
    LetterBegins(c.replayer, b, p, f);
    forall root | root in b'.hops ensures RootOk(c.replayer, b', root) {
      if root != p { LetterApart(c.replayer, b, p, f, root); }
    }
    forall q | q in t.dlq && q !in b'.seen ensures IsNewest(b', q) {
      if q != p { LetterLeavesNewest(b, p, f, q); }
    }
    forall k | k in t.replayers && Works(t.replayers[k]) ensures IsNewest(b', t.replayers[k].phase.at) {
      LetterLeavesNewest(b, p, f, t.replayers[k].phase.at);
    }
  }

  lemma LetterBegins(c: ReplayerConfig, b: Book, p: Position, f: Fields)
    ensures RootOk(c, NoteLetter(b, p, f), p) && IsNewest(NoteLetter(b, p, f), p)
  {
    hide OrigId;
  }

  lemma HopRoot(c: ReplayerConfig, b: Book, p: Position, q: Position, h: Hop)
    requires IsNewest(b, q) && Rooted(b, b.stems[q]) && RootOk(c, b, b.stems[q].root) && StemOk(c, b.stems[q])
    requires IsHop(c, Tip(b.stems[q]), Orig(b.stems[q]), h) && p !in b.stems
    ensures RootOk(c, NoteHop(b, p, b.stems[q], h), b.stems[q].root)
    ensures h.Requeued? ==> IsNewest(NoteHop(b, p, b.stems[q], h), p)
  {
    hide IsHop, IsChain, OrigId;
    ChainSnoc(c, b.stems[q].letter, Orig(b.stems[q]), b.stems[q].path, h);
  }

  /** A hop does not touch the other roots. */
  lemma HopApart(c: ReplayerConfig, b: Book, p: Position, st: Stem, h: Hop, root: Position)
    requires p !in b.stems && root in b.hops && root != st.root && RootOk(c, b, root)
    ensures RootOk(c, NoteHop(b, p, st, h), root)
  {
    hide IsChain, OrigId;
  }

  lemma HopLeavesNewest(b: Book, p: Position, q: Position, h: Hop, other: Position)
    requires p !in b.stems && IsNewest(b, q) && IsNewest(b, other) && other != q
    ensures IsNewest(NoteHop(b, p, b.stems[q], h), other)
  {
  }

  lemma HopTrack(c: Config, b: Book, s: Sys, a: Action, t: Sys)
    requires Step(c, s, a) == Some(t) && HopMade(a).Some?
    requires StemsOk(c, b, s) && SeenOk(b, s) && OnTrack(c, b, s)
    ensures OnTrack(c, Note(b, s, a), t)
  {
    hide Step, RootOk, IsNewest, StemOk, Tip, IsHop, ReplayNext, OrigId;
    AfterHop(c, b, s, a, t);
    HopFromStem(c, b, s, a, t);
    var p, at, h, b' := s.nextPos, s.replayers[a.replayer].phase.at, HopMade(a).value, Note(b, s, a);
    assert p !in b.stems && p !in b.seen;
    HopRoot(c.replayer, b, p, at, h);
    forall root | root in b'.hops ensures RootOk(c.replayer, b', root) {
      if root != b.stems[at].root { HopApart(c.replayer, b, p, b.stems[at], h, root); }
    }
    forall q | q in t.dlq && q !in b'.seen ensures IsNewest(b', q) {
      if q in s.dlq { HopLeavesNewest(b, p, at, h, q); }
    }
    forall k | k in t.replayers && Works(t.replayers[k]) ensures IsNewest(b', t.replayers[k].phase.at) {
      HopLeavesNewest(b, p, at, h, t.replayers[k].phase.at);
    }
  }

  lemma SameLines(c: ReplayerConfig, b: Book, b': Book)
    requires b'.stems == b.stems && b'.hops == b.hops && b'.newest == b.newest
    ensures forall root | root in b.hops :: RootOk(c, b, root) ==> RootOk(c, b', root)
    ensures forall q :: IsNewest(b, q) ==> IsNewest(b', q)
  {
    hide IsChain, OrigId;
  }

  lemma OtherTrack(c: Config, b: Book, s: Sys, a: Action, t: Sys)
    requires Step(c, s, a) == Some(t) && HopMade(a).None? && AddedEntry(a).None?
    requires Reads(a) ==> a.replayCall.at !in b.seen
    requires StemsOk(c, b, s) && SeenOk(b, s) && OnTrack(c, b, s)
    ensures OnTrack(c, Note(b, s, a), t)
  {
    hide Step, StemOk, ReplayNext, Rooted, RootOk, IsNewest, Tip, LetsGo;
    SameLines(c.replayer, b, Note(b, s, a));
    AfterOther(c, s, a, t);
  }

  // ---------------------------------------------------------------------------
  // What becomes of the newest entry
  // ---------------------------------------------------------------------------

  predicate Waiting(b: Book, s: Sys, q: Position) {
    q in s.dlq && q !in b.seen
  }

  predicate Holds(s: Sys, k: nat, q: Position) {
    k in s.replayers && Works(s.replayers[k]) && s.replayers[k].phase.at == q
  }

  ghost predicate InHand(s: Sys, q: Position) {
    exists k :: Holds(s, k, q)
  }

  /** The action ends this replayer's work on the entry. */
  predicate DropsBy(s: Sys, a: Action, k: nat, q: Position) {
    && (a.ReplayerDoes? || a.StartReplayer?) && a.replayer == k
    && Holds(s, k, q) && (HopMade(a).Some? || LetsGo(a))
  }

  predicate Drops(s: Sys, a: Action, q: Position) {
    (a.ReplayerDoes? || a.StartReplayer?) && DropsBy(s, a, a.replayer, q)
  }

  /** The newest entry of a root is live, unless the root is finished or lost; never both. */
  ghost predicate Fates(b: Book, s: Sys) {
    && b.lost <= b.hops.Keys
    && forall root | root in b.hops && root in b.newest :: FateOk(b, s, root)
  }

  ghost predicate FateOk(b: Book, s: Sys, root: Position)
    requires root in b.hops && root in b.newest
  {
    if Finished(b, root) then root !in b.lost
    else root in b.lost <==> !Waiting(b, s, b.newest[root]) && !InHand(s, b.newest[root])
  }

  lemma NewestOld(c: Config, b: Book, s: Sys, root: Position)
    requires StemsOk(c, b, s) && OnTrack(c, b, s) && root in b.hops && root in b.newest
    ensures b.newest[root] in b.stems && b.newest[root] < s.nextPos
  {
    hide StemOk, IsChain, OrigId, Tip;
    assert RootOk(c.replayer, b, root);
  }

  lemma WaitingGoesOn(c: Config, b: Book, s: Sys, a: Action, t: Sys, q: Position)
    requires Step(c, s, a) == Some(t) && SeenOk(b, s) && q < s.nextPos
    ensures Waiting(Note(b, s, a), t, q) <==> Waiting(b, s, q) && !(Reads(a) && a.replayCall.at == q)
  {
    hide Step, ReplayNext;
    StepShape(c, s, a, t);
    StepReplayers(c, s, a, t);
    if a.ReplayerDoes? { WorkGoesOn(c, s.replayers[a.replayer], a.replayCall); }
  }

  /** Who works on an entry goes on doing so until a hop or until letting go, and starts by reading it. */
  lemma HoldingGoesOn(c: Config, s: Sys, a: Action, t: Sys, k: nat, q: Position)
    requires Step(c, s, a) == Some(t)
    ensures Holds(t, k, q) <==>
            (Reads(a) && a.replayer == k && a.replayCall.at == q) || (Holds(s, k, q) && !DropsBy(s, a, k, q))
  {
    hide Step, ReplayNext;
    StepReplayers(c, s, a, t);
    if a.ReplayerDoes? { WorkGoesOn(c, s.replayers[a.replayer], a.replayCall); }
  }

  lemma InHandGoesOn(c: Config, b: Book, s: Sys, a: Action, t: Sys, q: Position)
    requires Step(c, s, a) == Some(t) && OnTrack(c, b, s)
    ensures InHand(t, q) <==> (Reads(a) && a.replayCall.at == q) || (InHand(s, q) && !Drops(s, a, q))
  {
    hide Step, RootOk, IsNewest;
    forall k
      ensures Holds(t, k, q) <==>
              (Reads(a) && a.replayer == k && a.replayCall.at == q) || (Holds(s, k, q) && !DropsBy(s, a, k, q))
    {
      HoldingGoesOn(c, s, a, t, k, q);
    }
    if Reads(a) && a.replayCall.at == q { assert Holds(t, a.replayer, q); }
  }

  /** What waits or is in hand stays so until it is dropped, and nothing else comes to. */
  lemma LiveGoesOn(c: Config, b: Book, s: Sys, a: Action, t: Sys, q: Position)
    requires Step(c, s, a) == Some(t) && SeenOk(b, s) && OnTrack(c, b, s) && q < s.nextPos
    requires Reads(a) ==> a.replayCall.at !in b.seen
    ensures Waiting(Note(b, s, a), t, q) || InHand(t, q) <==> (Waiting(b, s, q) || InHand(s, q)) && !Drops(s, a, q)
  {
    hide Step, OnTrack, InHand, Note, ReplayNext, LetsGo;
    WaitingGoesOn(c, b, s, a, t, q);
    InHandGoesOn(c, b, s, a, t, q);
    StepReplayers(c, s, a, t);
  }

  lemma LetterFates(c: Config, b: Book, s: Sys, a: Action, t: Sys)
    requires Step(c, s, a) == Some(t) && a.WorkerDoes? && AddedEntry(a).Some?
    requires StemsOk(c, b, s) && SeenOk(b, s) && OnTrack(c, b, s) && Fates(b, s)
    ensures Fates(Note(b, s, a), t)
  {
    hide Step, StemOk, Rooted, Tip, RootOk, IsNewest, OnTrack, InHand;
    StepShape(c, s, a, t);
    var p, b' := s.nextPos, Note(b, s, a);
    assert p !in b.hops && Waiting(b', t, p);
    forall root | root in b'.hops && root in b'.newest ensures FateOk(b', t, root) {
      if root != p {
        NewestOld(c, b, s, root);
        LiveGoesOn(c, b, s, a, t, b.newest[root]);
        assert FateOk(b, s, root);
      }
    }
  }

  /** An entry in work is the newest of a root that is neither finished nor lost, and nobody else works on it. */
  lemma InWork(c: Config, b: Book, s: Sys, k: nat)
    requires StemsOk(c, b, s) && SeenOk(b, s) && OnTrack(c, b, s) && Fates(b, s) && HeldStem(b, s, k).Some?
    ensures var at := s.replayers[k].phase.at; var root := b.stems[at].root;
            && root in b.hops && root in b.newest && b.newest[root] == at && at in b.seen && root !in b.lost
            && !Finished(b, root)
            && forall m | m in s.replayers && m != k && Works(s.replayers[m]) :: s.replayers[m].phase.at != at
  {
    hide RootOk, IsChain, OrigId, Tip, Rooted;
    var at := s.replayers[k].phase.at;
    assert IsNewest(b, at) && StemOk(c.replayer, b.stems[at]);
    assert Holds(s, k, at);
    assert FateOk(b, s, b.stems[at].root);
  }

  /** What an action does to a root other than that of the entry it drops. */
  lemma FateElsewhere(c: Config, b: Book, s: Sys, a: Action, t: Sys, root: Position)
    requires Step(c, s, a) == Some(t) && StemsOk(c, b, s) && SeenOk(b, s) && OnTrack(c, b, s) && Fates(b, s)
    requires Reads(a) ==> a.replayCall.at !in b.seen
    requires root in b.hops && root in b.newest && !Drops(s, a, b.newest[root])
    requires var b' := Note(b, s, a);
             && root in b'.hops && b'.hops[root] == b.hops[root] && (root in b'.lost <==> root in b.lost)
             && root in b'.newest && b'.newest[root] == b.newest[root]
    ensures FateOk(Note(b, s, a), t, root)
  {
    hide Step, StemsOk, SeenOk, OnTrack, InHand, Waiting, Drops, Note;
    NewestOld(c, b, s, root);
    LiveGoesOn(c, b, s, a, t, b.newest[root]);
    assert FateOk(b, s, root);
  }

  lemma HopFate(c: Config, b: Book, s: Sys, a: Action, t: Sys)
    requires Step(c, s, a) == Some(t) && HopMade(a).Some?
    requires StemsOk(c, b, s) && SeenOk(b, s) && OnTrack(c, b, s) && Fates(b, s) && HeldStem(b, s, a.replayer).Some?
    ensures var b', root := Note(b, s, a), HeldStem(b, s, a.replayer).value.root;
            root in b'.hops && root in b'.newest && FateOk(b', t, root) && b'.lost == b.lost && root in b.hops
  {
    hide Step, StemsOk, OnTrack, Fates, InHand;
    StepShape(c, s, a, t);
    InWork(c, b, s, a.replayer);
  }

  lemma HopFates(c: Config, b: Book, s: Sys, a: Action, t: Sys)
    requires Step(c, s, a) == Some(t) && HopMade(a).Some?
    requires StemsOk(c, b, s) && SeenOk(b, s) && OnTrack(c, b, s) && Fates(b, s)
    ensures Fates(Note(b, s, a), t)
  {
    hide Step, StemOk, Tip, RootOk, IsNewest, InHand, IsHop, FateOk;
    StepShape(c, s, a, t);
    HopFromStem(c, b, s, a, t);
    InWork(c, b, s, a.replayer);
    HopFate(c, b, s, a, t);
    var b', root := Note(b, s, a), HeldStem(b, s, a.replayer).value.root;
    forall r | r in b'.hops && r in b'.newest ensures FateOk(b', t, r) {
      if r != root {
        NewestApart(c, b, r, root);
        FateElsewhere(c, b, s, a, t, r);
      }
    }
  }

  /** Every root has a newest entry of its own. */
  lemma NewestApart(c: Config, b: Book, r: Position, root: Position)
    requires r in b.hops && RootOk(c.replayer, b, r) && root in b.hops && RootOk(c.replayer, b, root) && r != root
    ensures r in b.newest && root in b.newest && b.newest[r] != b.newest[root]
  {
    hide IsChain;
  }

  lemma LostFate(c: Config, b: Book, s: Sys, a: Action, t: Sys)
    requires Step(c, s, a) == Some(t) && HopMade(a).None? && (a.ReplayerDoes? || a.StartReplayer?) && LetsGo(a)
    requires StemsOk(c, b, s) && SeenOk(b, s) && OnTrack(c, b, s) && Fates(b, s) && HeldStem(b, s, a.replayer).Some?
    ensures var b', root := Note(b, s, a), HeldStem(b, s, a.replayer).value.root;
            root in b'.hops && root in b'.newest && FateOk(b', t, root)
  {
    hide Step, StemsOk, OnTrack, Fates, InHand;
    InWork(c, b, s, a.replayer);
    InHandGoesOn(c, b, s, a, t, s.replayers[a.replayer].phase.at);
  }

  lemma OtherFates(c: Config, b: Book, s: Sys, a: Action, t: Sys)
    requires Step(c, s, a) == Some(t) && HopMade(a).None? && AddedEntry(a).None?
    requires Reads(a) ==> a.replayCall.at !in b.seen
    requires StemsOk(c, b, s) && SeenOk(b, s) && OnTrack(c, b, s) && Fates(b, s)
    ensures Fates(Note(b, s, a), t)
  {
    hide Step, StemOk, Tip, RootOk, IsNewest, InHand, FateOk, LetsGo;
    var b' := Note(b, s, a);
    var drops := (a.ReplayerDoes? || a.StartReplayer?) && LetsGo(a) && HeldStem(b, s, a.replayer).Some?;
    if drops {
      InWork(c, b, s, a.replayer);
      LostFate(c, b, s, a, t);
    }
    forall r | r in b'.hops && r in b'.newest ensures FateOk(b', t, r) {
      if !drops {
        FateElsewhere(c, b, s, a, t, r);
      } else if r != HeldStem(b, s, a.replayer).value.root {
        NewestApart(c, b, r, HeldStem(b, s, a.replayer).value.root);
        FateElsewhere(c, b, s, a, t, r);
      }
    }
  }

  // ---------------------------------------------------------------------------
  // Over whole runs
  // ---------------------------------------------------------------------------

  ghost predicate TrackInv(c: Config, b: Book, s: Sys) {
    StemsOk(c, b, s) && SeenOk(b, s) && OnTrack(c, b, s) && Fates(b, s)
  }

  lemma StepTracks(c: Config, b: Book, s: Sys, a: Action, t: Sys)
    requires Step(c, s, a) == Some(t) && TrackInv(c, b, s) && (Reads(a) ==> a.replayCall.at !in b.seen)
    ensures TrackInv(c, Note(b, s, a), t)
  {
    hide Step, StemsOk, SeenOk, OnTrack, Fates, Note;
    StepStems(c, b, s, a, t);
    SeenKeeps(c, b, s, a, t);
    if HopMade(a).Some? {
      HopTrack(c, b, s, a, t);
      HopFates(c, b, s, a, t);
    } else if AddedEntry(a).Some? {
      LetterTrack(c, b, s, a, t);
      LetterFates(c, b, s, a, t);
    } else {
      OtherTrack(c, b, s, a, t);
      OtherFates(c, b, s, a, t);
    }
  }

  /** The entries seen are those of the reads. */
  lemma {:induction false} SeenWasRead(c: Config, actions: seq<Action>, q: Position)
    requires Run(c, actions).Some? && q in BookOf(c, actions).seen
    ensures exists i | 0 <= i < |actions| :: Reads(actions[i]) && actions[i].replayCall.at == q
  {
    hide Step;
    var n := |actions| - 1;
    var front, a := actions[..n], actions[n];
    if Reads(a) && a.replayCall.at == q {
      assert Reads(actions[n]);
    } else {
      SeenWasRead(c, front, q);
      var i :| 0 <= i < |front| && Reads(front[i]) && front[i].replayCall.at == q;
      assert Reads(actions[i]);
    }
  }

  lemma {:induction false} RunTracks(c: Config, actions: seq<Action>)
    requires Run(c, actions).Some? && ReadsOnce(actions)
    ensures TrackInv(c, BookOf(c, actions), Run(c, actions).value)
  {
    if actions != [] {
      hide Step, TrackInv, Note;
      var n := |actions| - 1;
      var front, a := actions[..n], actions[n];
      forall i | 0 <= i < n ensures front[i] == actions[i] {}
      RunTracks(c, front);
      if Reads(a) && a.replayCall.at in BookOf(c, front).seen {
        SeenWasRead(c, front, a.replayCall.at);
        assert false;
      }
      StepTracks(c, BookOf(c, front), Run(c, front).value, a, Run(c, actions).value);
    }
  }

  /**
   When entries are handed out once, the copies of a dead-lettering form one line: copy i is the one that place i of
   its chain calls for, and nothing follows the burial.
   */
  lemma RetryChainInOrder(c: Config, actions: seq<Action>, root: Position, i: nat)
    requires Run(c, actions).Some? && ReadsOnce(actions) && c.replayer.retryMax <= INT_MAX
    requires root in BookOf(c, actions).hops && i < |BookOf(c, actions).hops[root]|
    ensures root in BookOf(c, actions).stems
    ensures var b := BookOf(c, actions);
            && HopFits(c.replayer, b.stems[root].letter, Orig(b.stems[root]), b.hops[root][i], i)
            && (b.hops[root][i].Buried? ==> i == |b.hops[root]| - 1)
  {
    hide Run, BookOf, ReadsOnce, IsChain, OrigId, StemsOk, SeenOk, Fates, BackoffMs, RetryCount;
    RunTracks(c, actions);
    var b := BookOf(c, actions);
    assert RootOk(c.replayer, b, root);
    var f, orig, hops := b.stems[root].letter, Orig(b.stems[root]), b.hops[root];
    ChainShape(c.replayer, f, orig, hops, i);
    if i + 1 < |hops| { ChainAt(c.replayer, f, orig, hops, i + 1); }
  }

  /**
   When moreover nothing of the dead-lettering waits or is in work any more, it was requeued exactly as often as the
   limit leaves and then buried, if and only if no replayer let an entry of it go: none was stored, none met a broken
   connection or a failed append, and no replayer that worked on it was restarted.
   */
  lemma RetryChainEnds(c: Config, actions: seq<Action>, root: Position)
    requires Run(c, actions).Some? && ReadsOnce(actions) && c.replayer.retryMax <= INT_MAX
    requires root in BookOf(c, actions).hops
    requires var b, s := BookOf(c, actions), Run(c, actions).value;
             forall q | q in b.stems && b.stems[q].root == root :: !Waiting(b, s, q) && !InHand(s, q)
    ensures root in BookOf(c, actions).stems
    ensures var b := BookOf(c, actions);
            var letter, hops := b.stems[root].letter, b.hops[root];
            (|hops| == Requeues(c.replayer, letter) + 1 && hops[|hops| - 1].Buried?) <==> root !in b.lost
  {
    hide Run, BookOf, ReadsOnce, IsChain, OrigId, StemsOk, SeenOk, BackoffMs, RetryCount, Requeues, Waiting, InHand;
    RunTracks(c, actions);
    var b, s := BookOf(c, actions), Run(c, actions).value;
    assert RootOk(c.replayer, b, root) && FateOk(b, s, root);
    if Finished(b, root) { RetryChainInOrder(c, actions, root, |b.hops[root]| - 1); }
  }

  /** The letter is what a worker makes of an event that was produced. */
  ghost predicate IsLetter(s: Sys, f: Fields) {
    exists e: Entry, error :: f == DlqFields(e, error) && e.id in s.events && s.events[e.id] == e.fields
  }

  lemma LetterStays(s: Sys, t: Sys, f: Fields)
    requires IsLetter(s, f) && Extends(s.events, t.events)
    ensures IsLetter(t, f)
  {
    hide DlqFields;
    var e: Entry, error :| f == DlqFields(e, error) && e.id in s.events && s.events[e.id] == e.fields;
    assert t.events[e.id] == e.fields;
  }

  lemma NewLetter(c: Config, s: Sys, a: Action, t: Sys)
    requires Inv(s) && Step(c, s, a) == Some(t) && a.WorkerDoes? && AddedEntry(a).Some?
    ensures IsLetter(s, a.call.fields)
  {
    hide WorkerEffect, DlqFields, WorkerRow, StoresOk, Accounted, ReplayerOk, PhaseOk;
    var w := s.workers[a.worker];
    var e := w.buf[w.phase.tx.next];
    assert WorkerOk(s, w) && Genuine(s, e);
  }

  lemma {:induction false} LetterOfEvent(c: Config, actions: seq<Action>, q: Position)
    requires Run(c, actions).Some? && q in BookOf(c, actions).stems
    ensures IsLetter(Run(c, actions).value, BookOf(c, actions).stems[q].letter)
  {
    hide Step, Inv, IsLetter, StoresOk;
    var n := |actions| - 1;
    var front, a, b := actions[..n], actions[n], BookOf(c, actions[..n]);
    var s, t := Run(c, front).value, Run(c, actions).value;
    RunKeepsInv(c, front);
    StepKeepsInv(c, s, a, t);
    var f := BookOf(c, actions).stems[q].letter;
    if a.WorkerDoes? && AddedEntry(a).Some? && q == s.nextPos {
      NewLetter(c, s, a, t);
    } else if q in b.stems && b.stems[q].letter == f {
      LetterOfEvent(c, front, q);
    } else {
      LetterOfEvent(c, front, s.replayers[a.replayer].phase.at);
    }
    LetterStays(s, t, f);
  }

  /**
   For an event without a retry count of its own the count starts at zero. In every run, of the copies made of it those
   after n < retryMax - 1 hops are requeues that sleep for count n and carry count n + 1, and the rest are burials.
   */
  lemma FreshEventChain(c: Config, actions: seq<Action>, j: nat, e: Entry, workerError: string)
    requires Run(c, actions).Some? && j < |actions| && HopMade(actions[j]).Some? && c.replayer.retryMax <= INT_MAX
    requires forall k | 0 <= k < |e.fields| :: e.fields[k].0 != RETRY
    requires Run(c, actions[..j]).Some?
    requires var st := HeldStem(BookOf(c, actions[..j]), Run(c, actions[..j]).value, actions[j].replayer);
             st.Some? && st.value.letter == DlqFields(e, workerError)
    ensures var h := HopMade(actions[j]).value;
            var n := |HeldStem(BookOf(c, actions[..j]), Run(c, actions[..j]).value, actions[j].replayer).value.path|;
            && OrigId(h.fields, "") == e.id && Visible(h.fields) == Visible(e.fields)
            && (if n < c.replayer.retryMax - 1
                then h.Requeued? && RetryCount(h.fields) == n + 1 && h.delay == BackoffMs(c.replayer.backoffMs, n)
                else h.Buried? && (n == 0 || n == c.replayer.retryMax - 1))
  {
    hide Run, BookOf, DlqFields, BackoffMs, FirstWins, OrigId, Visible;
    RetryChain(c, actions, j);
    FreshCount(e, workerError);
    DlqKeepsEvent(e, workerError, "");
  }

  lemma FreshCount(e: Entry, workerError: string)
    requires forall k | 0 <= k < |e.fields| :: e.fields[k].0 != RETRY
    ensures RetryCount(DlqFields(e, workerError)) == 0
  {
    hide FirstWins;
    FirstWinsPair((ERR, workerError));
    FirstWinsFramed(e.id, e.fields, [(ERR, workerError)]);
    FirstWinsKeys(e.fields);
  }
}
