/**
 The inspection of bytes coming from the backend. They arrive in arbitrary pieces; complete frames are shown to the
 callbacks and passed on to the client unless a callback consumes them.
 */
module FrameInspector {
  import opened Packet
  import opened Sequences

  const MAX_INSPECTABLE: nat := 256 * 1024
  const BACKEND_READ: nat := 8192
  /** The longest piece that fits beside any unfinished frame. */
  const SAFE_PIECE: nat := MAX_INSPECTABLE - (HEADER_BYTES + MAX_BODY - 1)

  datatype Callback = OnLoginRes(body: Bytes) | OnFrame(msgId: U16, frame: Bytes)

  /** Which callbacks are installed, and whether the n-th frame of the connection is consumed. */
  datatype Handlers = Handlers(login: bool, frame: bool, consumes: nat -> bool)

  /** What has been done so far: unfinished bytes kept, frames seen, bytes passed on, callbacks made. */
  datatype Progress = Progress(prebuffer: Bytes, frames: nat, passed: Bytes, calls: seq<Callback>)

  const START := Progress([], 0, [], [])

  function FrameCalls(h: Handlers, f: Bytes): seq<Callback>
    requires |f| >= HEADER_BYTES
  {
    var header := DecodeHeader(f);
    (if header.msgId == MSG_LOGIN_RES && h.login then [OnLoginRes(f[HEADER_BYTES..])] else [])
    + (if h.frame then [OnFrame(header.msgId, f)] else [])
  }

  predicate Consumed(h: Handlers, n: nat) {
    h.frame && h.consumes(n)
  }

  predicate AllFrames(fs: seq<Bytes>) {
    forall i | 0 <= i < |fs| :: IsFrame(fs[i])
  }

  /** Whole frames handled one after the other. */
  function Handle(h: Handlers, p: Progress, fs: seq<Bytes>): Progress
    requires AllFrames(fs)
  {
    if fs == [] then p else
      var q := Handle(h, p, fs[..|fs| - 1]);
      var f := fs[|fs| - 1];
      Progress(q.prebuffer, q.frames + 1, if Consumed(h, q.frames) then q.passed else q.passed + f,
               q.calls + FrameCalls(h, f))
  }

  /** The reference: the stream framed in one go. */
  function Whole(h: Handlers, s: Bytes): Progress {
    FramesSplit(s);
    Handle(h, START, Frames(s)).(prebuffer := Unframed(s))
  }

  /** The bytes looked at when a piece arrives: an overlong total drops the unfinished ones. */
  function Buffered(prebuffer: Bytes, piece: Bytes): Bytes {
    (if |prebuffer| + |piece| > MAX_INSPECTABLE then [] else prebuffer) + piece
  }

  /** One call. */
  function Feed(h: Handlers, p: Progress, piece: Bytes): Progress {
    if piece == [] then p else
      var buffer := Buffered(p.prebuffer, piece);
      FramesSplit(buffer);
      Handle(h, p, Frames(buffer)).(prebuffer := Unframed(buffer))
  }

  function FeedAll(h: Handlers, pieces: seq<Bytes>): Progress {
    if pieces == [] then START else Feed(h, FeedAll(h, pieces[..|pieces| - 1]), pieces[|pieces| - 1])
  }

  // ---------------------------------------------------------------------------
  // Chunking does not matter
  // ---------------------------------------------------------------------------

  lemma {:induction false} HandleAppend(h: Handlers, p: Progress, a: seq<Bytes>, b: seq<Bytes>)
    requires AllFrames(a) && AllFrames(b)
    ensures Handle(h, p, a + b) == Handle(h, Handle(h, p, a), b)
    decreases |b|
  {
    hide IsFrame, FrameCalls;
    if b == [] {
      assert a + b == a;
    } else {
      var n := |b| - 1;
      assert (a + b)[..|a + b| - 1] == a + b[..n];
      HandleAppend(h, p, a, b[..n]);
    }
  }

  /** Handling does not look at the kept bytes. */
  lemma {:induction false} HandleKeeps(h: Handlers, p: Progress, kept: Bytes, fs: seq<Bytes>)
    requires AllFrames(fs)
    ensures Handle(h, p.(prebuffer := kept), fs) == Handle(h, p, fs).(prebuffer := kept)
    ensures Handle(h, p, fs).prebuffer == p.prebuffer
  {
    hide IsFrame, FrameCalls;
    if fs != [] {
      HandleKeeps(h, p, kept, fs[..|fs| - 1]);
    }
  }

  /** A call that drops nothing takes the reference reading of a stream to that of the longer stream. */
  lemma FeedExtends(h: Handlers, s: Bytes, piece: Bytes)
    requires piece == [] || Unframed(s) == [] || |Unframed(s)| + |piece| <= MAX_INSPECTABLE
    ensures Feed(h, Whole(h, s), piece) == Whole(h, s + piece)
  {
    hide Frames, Unframed, HasFrame, IsFrame, Handle;
    if piece == [] {
      assert s + piece == s;
    } else {
      var rest := Unframed(s) + piece;
      assert Buffered(Unframed(s), piece) == rest;
      FramesAppend(s, piece);
      FramesSplit(s);
      FramesSplit(rest);
      FramesSplit(s + piece);
      HandleKeeps(h, Handle(h, START, Frames(s)), Unframed(s), Frames(rest));
      HandleAppend(h, START, Frames(s), Frames(rest));
    }
  }

  /** No piece follows an unfinished frame it cannot stand beside. */
  predicate PiecesFit(pieces: seq<Bytes>) {
    forall n | 0 <= n < |pieces| ::
      var kept := Unframed(Flatten(pieces[..n]));
      pieces[n] == [] || kept == [] || |kept| + |pieces[n]| <= MAX_INSPECTABLE
  }

  lemma {:induction false} FeedsAreWhole(h: Handlers, pieces: seq<Bytes>)
    requires PiecesFit(pieces)
    ensures FeedAll(h, pieces) == Whole(h, Flatten(pieces))
  {
    hide Whole, Feed, Unframed;
    if pieces == [] {
      WholeOfNothing(h);
    } else {
      var n := |pieces| - 1;
      var front := pieces[..n];
      forall k | 0 <= k < n ensures pieces[..k] == front[..k] && pieces[k] == front[k] {}
      FeedsAreWhole(h, front);
      WholeKeeps(h, Flatten(front));
      assert pieces[..n] == front;
      FeedExtends(h, Flatten(front), pieces[n]);
    }
  }

  lemma WholeOfNothing(h: Handlers)
    ensures Whole(h, []) == START
  {
  }

  lemma WholeKeeps(h: Handlers, s: Bytes)
    ensures Whole(h, s).prebuffer == Unframed(s)
  {
    hide Handle, Unframed, Frames;
  }

  /**
   The pass-through bytes, the callbacks and the leftover are those of framing the whole stream at once, for every way
   of cutting it into pieces of at most SAFE_PIECE bytes.
   */
  lemma ChunkingIndependent(h: Handlers, pieces: seq<Bytes>)
    requires forall i | 0 <= i < |pieces| :: |pieces[i]| <= SAFE_PIECE
    ensures FeedAll(h, pieces) == Whole(h, Flatten(pieces))
    ensures forall n | 0 <= n < |pieces| :: |FeedAll(h, pieces[..n]).prebuffer| + |pieces[n]| <= MAX_INSPECTABLE
  {
    hide FeedAll, Whole, Unframed, Flatten;
    forall n | 0 <= n < |pieces|
      ensures |FeedAll(h, pieces[..n]).prebuffer| + |pieces[n]| <= MAX_INSPECTABLE
      ensures |Unframed(Flatten(pieces[..n]))| + |pieces[n]| <= MAX_INSPECTABLE
    {
      KeptShort(h, pieces[..n]);
      UnframedShort(Flatten(pieces[..n]));
    }
    FeedsAreWhole(h, pieces);
  }

  /** What is kept between calls is never a whole frame long. */
  lemma KeptShort(h: Handlers, pieces: seq<Bytes>)
    ensures |FeedAll(h, pieces).prebuffer| < HEADER_BYTES + MAX_BODY
  {
    hide Handle, Unframed, Frames;
    if pieces != [] {
      var p := FeedAll(h, pieces[..|pieces| - 1]);
      var piece := pieces[|pieces| - 1];
      KeptShort(h, pieces[..|pieces| - 1]);
      if piece != [] {
        UnframedShort(Buffered(p.prebuffer, piece));
      }
    }
  }

  /** In particular for the reads the backend connection makes: the overlong total cannot occur. */
  lemma BackendReadsNeverDrop(h: Handlers, pieces: seq<Bytes>)
    requires forall i | 0 <= i < |pieces| :: |pieces[i]| <= BACKEND_READ
    ensures FeedAll(h, pieces) == Whole(h, Flatten(pieces))
    ensures forall n | 0 <= n < |pieces| :: |FeedAll(h, pieces[..n]).prebuffer| + |pieces[n]| <= MAX_INSPECTABLE
  {
    ChunkingIndependent(h, pieces);
  }

  lemma {:induction false} HandlePasses(h: Handlers, p: Progress, fs: seq<Bytes>)
    requires AllFrames(fs) && (!h.frame || forall n :: !h.consumes(n))
    ensures Handle(h, p, fs).passed == p.passed + Flatten(fs)
  {
    hide IsFrame, FrameCalls;
    if fs != [] {
      HandlePasses(h, p, fs[..|fs| - 1]);
    }
  }

  /** The frames that the frame callback, if there is one, leaves alone. */
  function LeftAlone(h: Handlers, fs: seq<Bytes>): seq<Bytes> {
    if fs == [] then [] else
      LeftAlone(h, fs[..|fs| - 1]) + if h.frame && h.consumes(|fs| - 1) then [] else [fs[|fs| - 1]]
  }

  lemma {:induction false} HandleLeaves(h: Handlers, fs: seq<Bytes>)
    requires AllFrames(fs)
    ensures Handle(h, START, fs).passed == Flatten(LeftAlone(h, fs)) && Handle(h, START, fs).frames == |fs|
  {
    hide IsFrame, FrameCalls;
    if fs != [] {
      hide Flatten;
      var n := |fs| - 1;
      HandleLeaves(h, fs[..n]);
      FlattenSnoc(LeftAlone(h, fs[..n]), fs[n]);
      assert LeftAlone(h, fs[..n]) + [] == LeftAlone(h, fs[..n]);
    }
  }

  /** A frame is passed on exactly when there is no frame callback or it does not consume the frame. */
  lemma PassedExactly(h: Handlers, s: Bytes)
    ensures Whole(h, s).passed == Flatten(LeftAlone(h, Frames(s)))
  {
    hide Handle, Unframed, Frames, Flatten;
    FramesSplit(s);
    HandleLeaves(h, Frames(s));
  }

  /** When nothing is consumed, what was passed on and what is kept make up the stream. */
  lemma Transparent(h: Handlers, s: Bytes)
    requires !h.frame || forall n :: !h.consumes(n)
    ensures Whole(h, s).passed + Whole(h, s).prebuffer == s
  {
    hide Handle, Unframed, Frames, Flatten;
    FramesSplit(s);
    HandlePasses(h, START, Frames(s));
    assert [] + Flatten(Frames(s)) == Flatten(Frames(s));
  }

  /** The frames shown to the frame callback, and the bodies shown to the login callback, in order. */
  function ShownFrames(calls: seq<Callback>): seq<Bytes> {
    if calls == [] then [] else
      var call := calls[|calls| - 1];
      ShownFrames(calls[..|calls| - 1]) + if call.OnFrame? then [call.frame] else []
  }

  function ShownLogins(calls: seq<Callback>): seq<Bytes> {
    if calls == [] then [] else
      var call := calls[|calls| - 1];
      ShownLogins(calls[..|calls| - 1]) + if call.OnLoginRes? then [call.body] else []
  }

  /** The bodies of the login responses among the frames. */
  function LoginBodies(fs: seq<Bytes>): seq<Bytes>
    requires AllFrames(fs)
  {
    if fs == [] then [] else
      var f := fs[|fs| - 1];
      LoginBodies(fs[..|fs| - 1]) + if DecodeHeader(f).msgId == MSG_LOGIN_RES then [f[HEADER_BYTES..]] else []
  }

  lemma ShownSnoc(calls: seq<Callback>, c: Callback)
    ensures ShownFrames(calls + [c]) == ShownFrames(calls) + if c.OnFrame? then [c.frame] else []
    ensures ShownLogins(calls + [c]) == ShownLogins(calls) + if c.OnLoginRes? then [c.body] else []
  {
    assert (calls + [c])[..|calls|] == calls;
  }

  lemma ShownOne(h: Handlers, calls: seq<Callback>, f: Bytes)
    requires |f| >= HEADER_BYTES
    ensures ShownFrames(calls + FrameCalls(h, f)) == ShownFrames(calls) + if h.frame then [f] else []
    ensures ShownLogins(calls + FrameCalls(h, f))
            == ShownLogins(calls)
               + if h.login && DecodeHeader(f).msgId == MSG_LOGIN_RES then [f[HEADER_BYTES..]] else []
  {
    hide DecodeHeader, ShownFrames, ShownLogins;
    var header := DecodeHeader(f);
    var first := OnLoginRes(f[HEADER_BYTES..]);
    var mid := if header.msgId == MSG_LOGIN_RES && h.login then calls + [first] else calls;
    ShownSnoc(calls, first);
    ShownSnoc(mid, OnFrame(header.msgId, f));
    assert calls + FrameCalls(h, f) == if h.frame then mid + [OnFrame(header.msgId, f)] else mid;
  }

  lemma {:induction false} HandleShows(h: Handlers, p: Progress, fs: seq<Bytes>)
    requires AllFrames(fs)
    ensures ShownFrames(Handle(h, p, fs).calls) == ShownFrames(p.calls) + if h.frame then fs else []
    ensures ShownLogins(Handle(h, p, fs).calls) == ShownLogins(p.calls) + if h.login then LoginBodies(fs) else []
  {
    hide ShownFrames, ShownLogins, FrameCalls, DecodeHeader;
    if fs != [] {
      var n := |fs| - 1;
      HandleShows(h, p, fs[..n]);
      ShownOne(h, Handle(h, p, fs[..n]).calls, fs[n]);
      assert fs == fs[..n] + [fs[n]];
    }
  }

  /**
   The frame callback sees exactly the frames of the stream, the login callback exactly the login responses' bodies.
   */
  lemma CallbacksSeeFrames(h: Handlers, s: Bytes)
    ensures AllFrames(Frames(s))
    ensures ShownFrames(Whole(h, s).calls) == if h.frame then Frames(s) else []
    ensures ShownLogins(Whole(h, s).calls) == if h.login then LoginBodies(Frames(s)) else []
  {
    hide Handle, Frames, Unframed, LoginBodies;
    FramesSplit(s);
    HandleShows(h, START, Frames(s));
    assert ShownFrames([]) == [] && ShownLogins([]) == [];
  }

  /** The callbacks the frames call for: for each the login callback, if it is a login response, then its own. */
  function CallsFor(h: Handlers, fs: seq<Bytes>): seq<Callback>
    requires AllFrames(fs)
  {
    if fs == [] then [] else
      var f := fs[|fs| - 1];
      var msgId := DecodeHeader(f).msgId;
      var login, frame := OnLoginRes(f[HEADER_BYTES..]), OnFrame(msgId, f);
      CallsFor(h, fs[..|fs| - 1])
      + if h.login && h.frame && msgId == MSG_LOGIN_RES then [login, frame]
        else if h.frame then [frame]
        else if h.login && msgId == MSG_LOGIN_RES then [login]
        else []
  }

  lemma {:induction false} HandleCalls(h: Handlers, fs: seq<Bytes>)
    requires AllFrames(fs)
    ensures Handle(h, START, fs).calls == CallsFor(h, fs)
  {
    hide DecodeHeader;
    if fs != [] { HandleCalls(h, fs[..|fs| - 1]); }
  }

  /** The callbacks of a stream are those its frames call for, in order. */
  lemma CalledInOrder(h: Handlers, s: Bytes)
    ensures AllFrames(Frames(s)) && Whole(h, s).calls == CallsFor(h, Frames(s))
  {
    hide Handle, Unframed, Frames, CallsFor;
    FramesSplit(s);
    HandleCalls(h, Frames(s));
  }

  // ---------------------------------------------------------------------------
  // Exactly when it does not matter
  // ---------------------------------------------------------------------------

  /**
   How many bytes the observer of a connection has seen in frames: the frames called back, or else those passed on.
   */
  function CalledBytes(calls: seq<Callback>): nat {
    if calls == [] then 0 else
      CalledBytes(calls[..|calls| - 1])
      + match calls[|calls| - 1] { case OnLoginRes(_) => 0 case OnFrame(_, f) => |f| }
  }

  function SeenBytes(h: Handlers, p: Progress): nat {
    |p.prebuffer| + if h.frame then CalledBytes(p.calls) else |p.passed|
  }

  lemma CalledBytesOf(h: Handlers, calls: seq<Callback>, f: Bytes)
    requires |f| >= HEADER_BYTES
    ensures CalledBytes(calls + FrameCalls(h, f)) == CalledBytes(calls) + if h.frame then |f| else 0
  {
    hide DecodeHeader;
    var header := DecodeHeader(f);
    var first := if header.msgId == MSG_LOGIN_RES && h.login then [OnLoginRes(f[HEADER_BYTES..])] else [];
    var mid := calls + first;
    assert first != [] ==> mid[..|calls|] == calls;
    assert first == [] ==> mid == calls;
    assert CalledBytes(mid) == CalledBytes(calls);
    if h.frame {
      var all := mid + [OnFrame(header.msgId, f)];
      assert all[..|mid|] == mid;
      assert all == calls + FrameCalls(h, f);
    } else {
      assert mid == calls + FrameCalls(h, f);
    }
  }

  lemma {:induction false} HandleSees(h: Handlers, p: Progress, fs: seq<Bytes>)
    requires AllFrames(fs)
    ensures SeenBytes(h, Handle(h, p, fs)) == SeenBytes(h, p) + |Flatten(fs)|
  {
    hide IsFrame, CalledBytes, FrameCalls;
    if fs != [] {
      var n := |fs| - 1;
      HandleSees(h, p, fs[..n]);
      FrameLong(fs[n]);
      CalledBytesOf(h, Handle(h, p, fs[..n]).calls, fs[n]);
    }
  }

  lemma FrameLong(f: Bytes)
    requires IsFrame(f)
    ensures |f| >= HEADER_BYTES
  {
  }

  lemma FeedSees(h: Handlers, p: Progress, piece: Bytes)
    ensures SeenBytes(h, Feed(h, p, piece)) <= SeenBytes(h, p) + |piece|
    ensures piece != [] && p.prebuffer != [] && |p.prebuffer| + |piece| > MAX_INSPECTABLE
            ==> SeenBytes(h, Feed(h, p, piece)) < SeenBytes(h, p) + |piece|
  {
    hide Handle, Unframed, Frames, CalledBytes, Flatten;
    if piece != [] {
      var buffer := Buffered(p.prebuffer, piece);
      FramesSplit(buffer);
      HandleSees(h, p, Frames(buffer));
      HandleKeeps(h, p, [], Frames(buffer));
    }
  }

  lemma WholeSees(h: Handlers, s: Bytes)
    ensures SeenBytes(h, Whole(h, s)) == |s|
  {
    hide Handle, Unframed, Frames, Flatten;
    FramesSplit(s);
    HandleSees(h, START, Frames(s));
    HandleKeeps(h, START, [], Frames(s));
  }

  lemma {:induction false} FeedsSee(h: Handlers, pieces: seq<Bytes>)
    ensures SeenBytes(h, FeedAll(h, pieces)) <= |Flatten(pieces)|
    ensures !PiecesFit(pieces) ==> SeenBytes(h, FeedAll(h, pieces)) < |Flatten(pieces)|
  {
    hide Feed, SeenBytes, Whole, Unframed;
    if pieces == [] {
      StartSees(h);
    } else {
      hide PiecesFit;
      var n := |pieces| - 1;
      var front := pieces[..n];
      FeedsSee(h, front);
      FeedSees(h, FeedAll(h, front), pieces[n]);
      LastPieceFits(pieces);
      if PiecesFit(front) {
        FeedsAreWhole(h, front);
        WholeKeeps(h, Flatten(front));
      }
    }
  }

  lemma LastPieceFits(pieces: seq<Bytes>)
    requires pieces != []
    ensures var n := |pieces| - 1;
            var kept := Unframed(Flatten(pieces[..n]));
            PiecesFit(pieces) <==>
            PiecesFit(pieces[..n]) && (pieces[n] == [] || kept == [] || |kept| + |pieces[n]| <= MAX_INSPECTABLE)
  {
    hide Unframed, Flatten;
    var n := |pieces| - 1;
    forall k | 0 <= k < n ensures pieces[..k] == pieces[..n][..k] && pieces[k] == pieces[..n][k] {}
  }

  lemma StartSees(h: Handlers)
    ensures SeenBytes(h, START) == 0
  {
  }

  /** Exactly: the pieces read as the whole stream does if and only if no call drops unfinished bytes. */
  lemma ChunkingExactly(h: Handlers, pieces: seq<Bytes>)
    ensures FeedAll(h, pieces) == Whole(h, Flatten(pieces)) <==> PiecesFit(pieces)
  {
    hide FeedAll, Whole, PiecesFit, SeenBytes, Flatten;
    if PiecesFit(pieces) {
      FeedsAreWhole(h, pieces);
    } else {
      FeedsSee(h, pieces);
      WholeSees(h, Flatten(pieces));
    }
  }

  /** A piece longer than any backend read does make a difference. */
  lemma OverlongPieceDrops(h: Handlers)
    ensures var pieces := [[0], seq(MAX_INSPECTABLE, _ => 0)];
            FeedAll(h, pieces) != Whole(h, Flatten(pieces))
  {
    var big: Bytes := seq(MAX_INSPECTABLE, _ => 0);
    var pieces := [[0], big];
    assert pieces[..1] == [] + [[0]];
    FlattenSnoc([], [0]);
    assert Flatten([]) + [0] == [0];
    assert !PiecesFit(pieces) by {
      assert Unframed(Flatten(pieces[..1])) == [0] && pieces[1] == big;
    }
    ChunkingExactly(h, pieces);
  }

  // ---------------------------------------------------------------------------
  // The code
  // ---------------------------------------------------------------------------

  class BackendInspector {
    const h: Handlers
    var prebuffer: Bytes
    var frames: nat
    ghost var passed: Bytes
    ghost var calls: seq<Callback>

    constructor (h: Handlers)
      ensures Now() == START && this.h == h
    {
      this.h, prebuffer, frames, passed, calls := h, [], 0, [], [];
    }

    ghost function Now(): Progress
      reads this
    {
      Progress(prebuffer, frames, passed, calls)
    }

    /** Show a frame to the callbacks; the bytes to pass on are the frame unless it is consumed. */
    method ShowFrame(header: Header, frame: Bytes) returns (part: Bytes)
      requires |frame| >= HEADER_BYTES && header == DecodeHeader(frame)
      modifies `calls, `frames, `passed
      ensures frames == old(frames) + 1 && calls == old(calls) + FrameCalls(h, frame)
      ensures part == (if Consumed(h, old(frames)) then [] else frame) && passed == old(passed) + part
    {
      hide DecodeHeader;
      if header.msgId == MSG_LOGIN_RES && h.login {
        calls := calls + [OnLoginRes(frame[HEADER_BYTES..])];
      }
      var consumed := false;
      if h.frame {
        calls := calls + [OnFrame(header.msgId, frame)];
        consumed := h.consumes(frames);
      }
      part := if consumed then [] else frame;
      passed := passed + part;
      frames := frames + 1;
    }

    /** Add a piece, take every complete frame off the front, and answer the bytes to pass on. */
    method InspectBackendFrames(payload: Bytes) returns (out: Bytes)
      modifies this
      ensures Now() == Feed(h, old(Now()), payload)
      ensures passed == old(passed) + out
    {
      hide Handling, DecodeHeader, FrameCalls, Feed, IsFrame;
      out := [];
      if payload == [] {
        FeedNothing(h, Now());
        return;
      }
      if |prebuffer| + |payload| > MAX_INSPECTABLE {
        prebuffer := [];
      }
      prebuffer := prebuffer + payload;
      ghost var start := old(Now());
      StartHandling(h, start, prebuffer);
      ghost var buffer := prebuffer;
      while |prebuffer| >= HEADER_BYTES
        invariant Handling(h, start, buffer, Now()) && passed == old(passed) + out
        decreases |prebuffer|
      {
        var header := DecodeHeader(prebuffer);
        var frameBytes := HEADER_BYTES + header.length;
        if |prebuffer| < frameBytes { break; }
        HandleFront(h, start, buffer, Now());
        var frame := prebuffer[..frameBytes];
        var part := ShowFrame(header, frame);
        out := out + part;
        prebuffer := prebuffer[frameBytes..];
      }
      DoneHandling(h, start, payload, Now());
    }
  }

  /** Part of the way through a buffer: the frames in front of what is left have been handled. */
  ghost predicate Handling(h: Handlers, start: Progress, buffer: Bytes, now: Progress) {
    exists fs | AllFrames(fs) ::
      && Frames(buffer) == fs + Frames(now.prebuffer) && Unframed(buffer) == Unframed(now.prebuffer)
      && now == Handle(h, start, fs).(prebuffer := now.prebuffer)
  }

  lemma StartHandling(h: Handlers, start: Progress, buffer: Bytes)
    ensures Handling(h, start, buffer, start.(prebuffer := buffer))
  {
    hide Frames, Unframed;
    assert AllFrames([]) && Frames(buffer) == [] + Frames(buffer);
    assert Handle(h, start, []) == start;
  }

  /** The progress made by handling frame f. */
  function Handled(h: Handlers, p: Progress, f: Bytes, left: Bytes): Progress
    requires |f| >= HEADER_BYTES
  {
    Progress(left, p.frames + 1, if Consumed(h, p.frames) then p.passed + [] else p.passed + f,
             p.calls + FrameCalls(h, f))
  }

  lemma HandleFront(h: Handlers, start: Progress, buffer: Bytes, now: Progress)
    requires HasFrame(now.prebuffer) && Handling(h, start, buffer, now)
    ensures var n := FrameSize(now.prebuffer);
            var f := now.prebuffer[..n];
            DecodeHeader(f) == DecodeHeader(now.prebuffer)
            && Handling(h, start, buffer, Handled(h, now, f, now.prebuffer[n..]))
  {
    hide Frames, Unframed, Handle, DecodeHeader, FrameCalls, IsFrame;
    var fs: seq<Bytes> :| AllFrames(fs) && Frames(buffer) == fs + Frames(now.prebuffer)
                          && Unframed(buffer) == Unframed(now.prebuffer)
                          && now == Handle(h, start, fs).(prebuffer := now.prebuffer);
    TakeFrame(now.prebuffer);
    var f, left := now.prebuffer[..FrameSize(now.prebuffer)], now.prebuffer[FrameSize(now.prebuffer)..];
    HandleOne(h, start, fs, f);
    assert fs + ([f] + Frames(left)) == (fs + [f]) + Frames(left);
    assert Handle(h, start, fs).passed + [] == Handle(h, start, fs).passed;
    assert AllFrames(fs + [f]) && Handled(h, now, f, left) == Handle(h, start, fs + [f]).(prebuffer := left);
  }

  lemma DoneHandling(h: Handlers, start: Progress, payload: Bytes, now: Progress)
    requires payload != [] && !HasFrame(now.prebuffer) && Handling(h, start, Buffered(start.prebuffer, payload), now)
    ensures now == Feed(h, start, payload)
  {
    hide Handle, IsFrame, Buffered;
    var buffer := Buffered(start.prebuffer, payload);
    var fs: seq<Bytes> :| AllFrames(fs) && Frames(buffer) == fs + Frames(now.prebuffer)
                          && Unframed(buffer) == Unframed(now.prebuffer)
                          && now == Handle(h, start, fs).(prebuffer := now.prebuffer);
    assert fs + [] == fs;
  }

  lemma FeedNothing(h: Handlers, p: Progress)
    ensures Feed(h, p, []) == p
  {
  }

  lemma HandleOne(h: Handlers, p: Progress, fs: seq<Bytes>, f: Bytes)
    requires AllFrames(fs) && IsFrame(f)
    ensures AllFrames(fs + [f])
    ensures var q := Handle(h, p, fs);
            Handle(h, p, fs + [f])
            == Progress(q.prebuffer, q.frames + 1, if Consumed(h, q.frames) then q.passed else q.passed + f,
                        q.calls + FrameCalls(h, f))
  {
    hide IsFrame, FrameCalls;
    assert (fs + [f])[..|fs|] == fs;
  }

  /** The frame at the front of a buffer, and the framing of what follows it. */
  lemma TakeFrame(s: Bytes)
    requires HasFrame(s)
    ensures var f := s[..FrameSize(s)];
            IsFrame(f) && DecodeHeader(f) == DecodeHeader(s)
            && Frames(s) == [f] + Frames(s[FrameSize(s)..]) && Unframed(s) == Unframed(s[FrameSize(s)..])
  {
    hide DecodeHeader;
    var n := FrameSize(s);
    assert s == s[..n] + s[n..];
    FrontUnchanged(s[..n], s[n..]);
  }
}
