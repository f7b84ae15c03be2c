/**
 The client side of a gateway connection up to the bridge. Until a login frame is accepted the gateway answers PINGs
 and drops PONGs itself; the login frame and everything after it goes to the backend untouched.
 */
module Handshake {
  import opened Packet
  import opened Sequences

  const MAX_HANDSHAKE: nat := 64 * 1024
  const MAX_LOGIN: nat := 32 * 1024
  const CLIENT_READ: nat := 4096
  /** The longest read that fits beside any frame still allowed to be unfinished. */
  const SAFE_READ: nat := MAX_HANDSHAKE - (HEADER_BYTES + MAX_LOGIN - 1)

  datatype Phase = WaitingForLogin | Bridging | Stopped

  /** prebuffer: bytes not yet dealt with; sent: frames sent to the client; toBackend: bytes handed to the backend. */
  datatype Link = Link(phase: Phase, prebuffer: Bytes, sent: seq<Bytes>, toBackend: Bytes)

  const FRESH := Link(WaitingForLogin, [], [], [])

  /** A frame with the given header's flags, sequence number and timestamp. */
  function ControlFrame(h: Header, msgId: U16, payload: Bytes): Bytes {
    EncodeHeader(Header(|payload| % 0x1_0000, msgId, h.flags, h.seqNo, h.stamp)) + payload
  }

  /** What the front of the buffer calls for. */
  datatype Front = NeedMore | Ping | Pong | Login | Bad

  function Look(s: Bytes): (r: Front)
    ensures r.Ping? || r.Pong? || r.Login? ==> HasFrame(s) && DecodeHeader(s).length <= MAX_LOGIN
  {
    if |s| < HEADER_BYTES then NeedMore else
      var h := DecodeHeader(s);
      if h.length > MAX_LOGIN then Bad
      else if |s| < FrameSize(s) then NeedMore
      else if h.msgId == MSG_PING then Ping
      else if h.msgId == MSG_PONG then Pong
      else if IsSystemMsgId(h.msgId) || h.msgId != MSG_LOGIN_REQ then Bad
      else Login
  }

  /** A complete frame of this kind, not longer than a login may be, is at the front. */
  predicate Leads(s: Bytes, msgId: U16) {
    HasFrame(s) && DecodeHeader(s).length <= MAX_LOGIN && DecodeHeader(s).msgId == msgId
  }

  /** What each front is, told by the header alone. */
  lemma LookMeans(s: Bytes)
    ensures Look(s).Login? <==> Leads(s, MSG_LOGIN_REQ)
    ensures Look(s).Ping? <==> Leads(s, MSG_PING)
    ensures Look(s).Pong? <==> Leads(s, MSG_PONG)
    ensures Look(s).NeedMore? <==>
            |s| < 14 || (DecodeHeader(s).length <= MAX_LOGIN && |s| < 14 + DecodeHeader(s).length)
    ensures Look(s).Bad? <==>
            && |s| >= 14
            && (|| DecodeHeader(s).length > MAX_LOGIN
                || (|s| >= 14 + DecodeHeader(s).length
                    && DecodeHeader(s).msgId !in {MSG_PING, MSG_PONG, MSG_LOGIN_REQ}))
  {
    hide DecodeHeader;
  }

  /** The answer to the PING at the front of s. */
  function PongFor(s: Bytes): Bytes
    requires HasFrame(s)
  {
    ControlFrame(DecodeHeader(s), MSG_PONG, s[HEADER_BYTES..FrameSize(s)])
  }

  /** The loop over the buffered bytes. accept is the answer of login checks and backend creation. */
  function Finish(accept: bool, c: Link): (d: Link)
    decreases |c.prebuffer|
  {
    match Look(c.prebuffer)
    case NeedMore => c
    case Ping =>
      Finish(accept, c.(sent := c.sent + [PongFor(c.prebuffer)], prebuffer := c.prebuffer[FrameSize(c.prebuffer)..]))
    case Pong => Finish(accept, c.(prebuffer := c.prebuffer[FrameSize(c.prebuffer)..]))
    case Login =>
      if accept then c.(phase := Bridging, prebuffer := [], toBackend := c.toBackend + c.prebuffer)
      else c.(phase := Stopped)
    case Bad => c.(phase := Stopped)
  }

  /** One read of the socket; a stopped connection reads no more. */
  function OnRead(accept: bool, c: Link, data: Bytes): Link {
    if data == [] then c else
      match c.phase
      case Stopped => c
      case Bridging => c.(toBackend := c.toBackend + data)
      case WaitingForLogin =>
        if |c.prebuffer| + |data| > MAX_HANDSHAKE then c.(phase := Stopped)
        else Finish(accept, c.(prebuffer := c.prebuffer + data))
  }

  function ReadAll(accept: bool, chunks: seq<Bytes>): Link {
    if chunks == [] then FRESH else OnRead(accept, ReadAll(accept, chunks[..|chunks| - 1]), chunks[|chunks| - 1])
  }

  // ---------------------------------------------------------------------------
  // The reference: the stream as a list of frames
  // ---------------------------------------------------------------------------

  predicate IsControl(f: Bytes) {
    IsFrame(f) && DecodeHeader(f).length <= MAX_LOGIN && DecodeHeader(f).msgId in {MSG_PING, MSG_PONG}
  }

  /** The leading run of complete PING and PONG frames. */
  function Run(fs: seq<Bytes>): seq<Bytes> {
    if fs == [] || !IsControl(fs[0]) then [] else [fs[0]] + Run(fs[1..])
  }

  predicate IsPing(f: Bytes) {
    IsFrame(f) && DecodeHeader(f).msgId == MSG_PING
  }

  /** The PONGs that answer the PINGs of a list of frames, in order. */
  function Pongs(fs: seq<Bytes>): seq<Bytes> {
    if fs == [] then [] else (if IsPing(fs[0]) then [PongFor(fs[0])] else []) + Pongs(fs[1..])
  }

  /** The stream after its leading run. */
  function AfterRun(s: Bytes): Bytes
    ensures |Flatten(Run(Frames(s)))| <= |s|
  {
    RunIsPrefix(s);
    s[|Flatten(Run(Frames(s)))|..]
  }

  function ReferencePhase(accept: bool, s: Bytes): Phase {
    match Look(AfterRun(s))
    case NeedMore => WaitingForLogin
    case Login => if accept then Bridging else Stopped
    case _ => Stopped
  }

  /** What the whole stream, read at once, calls for. */
  function Reference(accept: bool, s: Bytes): Link {
    var phase := ReferencePhase(accept, s);
    Link(phase, if phase == Bridging then [] else AfterRun(s), Pongs(Run(Frames(s))),
         if phase == Bridging then AfterRun(s) else [])
  }

  lemma {:induction false} RunIsPrefix(s: Bytes)
    ensures |Flatten(Run(Frames(s)))| <= |s| && s == Flatten(Run(Frames(s))) + s[|Flatten(Run(Frames(s)))|..]
    decreases |s|
  {
    hide DecodeHeader;
    if HasFrame(s) && IsControl(s[..FrameSize(s)]) {
      var n := FrameSize(s);
      RunIsPrefix(s[n..]);
      FlattenCons(s[..n], Run(Frames(s[n..])));
    }
  }

  // ---------------------------------------------------------------------------
  // A PONG mirrors its PING
  // ---------------------------------------------------------------------------

  /** Same flags, sequence number, timestamp and payload, and itself a well-formed frame. */
  lemma PongMirrorsPing(f: Bytes)
    requires IsFrame(f)
    ensures IsFrame(PongFor(f)) && DecodeHeader(PongFor(f)) == DecodeHeader(f).(msgId := MSG_PONG)
    ensures PongFor(f)[HEADER_BYTES..] == f[HEADER_BYTES..]
  {
    hide DecodeHeader, EncodeHeader;
    var h := DecodeHeader(f);
    var payload := f[HEADER_BYTES..FrameSize(f)];
    assert payload == f[HEADER_BYTES..];
    HeaderRoundTrip(Header(h.length, MSG_PONG, h.flags, h.seqNo, h.stamp), payload);
  }

  // ---------------------------------------------------------------------------
  // Steps of the reference
  // ---------------------------------------------------------------------------

  /** The front of the stream is a PING or PONG exactly when the run is not empty. */
  lemma LookAtRun(s: Bytes)
    ensures Look(s).Ping? || Look(s).Pong? <==> HasFrame(s) && IsControl(s[..FrameSize(s)])
    ensures Look(s).Ping? <==> HasFrame(s) && IsControl(s[..FrameSize(s)]) && IsPing(s[..FrameSize(s)])
  {
    hide DecodeHeader;
    if HasFrame(s) {
      var n := FrameSize(s);
      assert s == s[..n] + s[n..];
      FrontUnchanged(s[..n], s[n..]);
    }
  }

  lemma RunCons(s: Bytes)
    requires Look(s).Ping? || Look(s).Pong?
    ensures HasFrame(s) && Run(Frames(s)) == [s[..FrameSize(s)]] + Run(Frames(s[FrameSize(s)..]))
  {
    hide DecodeHeader, Look;
    LookAtRun(s);
    LookFrames(s);
    hide Frames, IsControl, HasFrame;
    var f, rest := s[..FrameSize(s)], s[FrameSize(s)..];
    assert ([f] + Frames(rest))[1..] == Frames(rest);
  }

  lemma PongOfFront(s: Bytes)
    requires Look(s).Ping? || Look(s).Pong?
    ensures HasFrame(s)
    ensures var f := s[..FrameSize(s)];
            (IsPing(f) <==> Look(s).Ping?) && HasFrame(f) && PongFor(f) == PongFor(s)
  {
    hide DecodeHeader, Look;
    LookAtRun(s);
    LookFrames(s);
    var n := FrameSize(s);
    assert s == s[..n] + s[n..];
    FrontUnchanged(s[..n], s[n..]);
    assert s[..n][HEADER_BYTES..n] == s[HEADER_BYTES..n];
  }

  lemma RunStep(s: Bytes)
    requires Look(s).Ping? || Look(s).Pong?
    ensures HasFrame(s)
    ensures var f, rest := s[..FrameSize(s)], s[FrameSize(s)..];
            Run(Frames(s)) == [f] + Run(Frames(rest)) && AfterRun(s) == AfterRun(rest)
            && Pongs(Run(Frames(s))) == (if Look(s).Ping? then [PongFor(s)] else []) + Pongs(Run(Frames(rest)))
  {
    hide DecodeHeader, Look, Run, Frames, IsPing, PongFor, FrameSize;
    RunCons(s);
    PongOfFront(s);
    var f, rest := s[..FrameSize(s)], s[FrameSize(s)..];
    FlattenCons(f, Run(Frames(rest)));
    RunIsPrefix(rest);
    assert ([f] + Run(Frames(rest)))[1..] == Run(Frames(rest));
  }

  lemma LookFrames(s: Bytes)
    requires Look(s).Ping? || Look(s).Pong?
    ensures HasFrame(s) && Frames(s) == [s[..FrameSize(s)]] + Frames(s[FrameSize(s)..])
  {
  }

  lemma RunStops(s: Bytes)
    requires !Look(s).Ping? && !Look(s).Pong?
    ensures Run(Frames(s)) == [] && AfterRun(s) == s && Pongs(Run(Frames(s))) == []
  {
    hide DecodeHeader, Look;
    LookAtRun(s);
  }

  /** The loop does what the reference says of the buffered bytes. */
  lemma {:induction false} FinishIsReference(accept: bool, c: Link)
    requires c.phase == WaitingForLogin && c.toBackend == []
    ensures var r := Reference(accept, c.prebuffer);
            Finish(accept, c) == r.(sent := c.sent + r.sent)
    decreases |c.prebuffer|
  {
    hide DecodeHeader, Frames, Run, Pongs, AfterRun, PongFor;
    var s := c.prebuffer;
    if Look(s).Ping? || Look(s).Pong? {
      hide Look;
      RunStep(s);
      var rest := s[FrameSize(s)..];
      var now := if Look(s).Ping? then [PongFor(s)] else [];
      FinishIsReference(accept, c.(sent := c.sent + now, prebuffer := rest));
      assert c.sent + now + Pongs(Run(Frames(rest))) == c.sent + (now + Pongs(Run(Frames(rest))));
      assert c.sent + [] == c.sent;
    } else {
      RunStops(s);
      assert c.sent + [] == c.sent;
    }
  }

  // ---------------------------------------------------------------------------
  // Reading on
  // ---------------------------------------------------------------------------

  /** More bytes do not change a front that is already decided. */
  lemma LookAppend(s: Bytes, t: Bytes)
    requires !Look(s).NeedMore?
    ensures Look(s + t) == Look(s)
  {
    hide DecodeHeader;
    FrontUnchanged(s, t);
  }

  /** More bytes leave the run alone once it is over. */
  lemma {:induction false} RunAppend(s: Bytes, t: Bytes)
    ensures var rest := AfterRun(s);
            AfterRun(s + t) == AfterRun(rest + t)
            && Run(Frames(s + t)) == Run(Frames(s)) + Run(Frames(rest + t))
            && Pongs(Run(Frames(s + t))) == Pongs(Run(Frames(s))) + Pongs(Run(Frames(rest + t)))
    decreases |s|
  {
    hide DecodeHeader, Look, Frames, Run, Pongs, AfterRun, PongFor;
    if Look(s).Ping? || Look(s).Pong? {
      FrameOfLook(s);
      var n := FrameSize(s);
      var f, rest := s[..n], s[n..];
      RunStep(s);
      LookAppend(s, t);
      FrontUnchanged(s, t);
      assert (s + t)[..n] == f && (s + t)[n..] == rest + t;
      SamePong(s, t);
      RunStep(s + t);
      RunAppend(rest, t);
      assert [f] + Run(Frames(rest)) + Run(Frames(AfterRun(rest) + t)) ==
        [f] + (Run(Frames(rest)) + Run(Frames(AfterRun(rest) + t)));
      var now := if Look(s).Ping? then [PongFor(s)] else [];
      assert now + Pongs(Run(Frames(rest))) + Pongs(Run(Frames(AfterRun(rest) + t)))
          == now + (Pongs(Run(Frames(rest))) + Pongs(Run(Frames(AfterRun(rest) + t))));
    } else {
      RunStops(s);
    }
  }

  lemma FrameOfLook(s: Bytes)
    requires Look(s).Ping? || Look(s).Pong?
    ensures HasFrame(s) && !Look(s).NeedMore?
  {
  }

  lemma SamePong(s: Bytes, t: Bytes)
    requires HasFrame(s)
    ensures HasFrame(s + t) && PongFor(s + t) == PongFor(s)
  {
    hide DecodeHeader;
    FrontUnchanged(s, t);
    assert (s + t)[HEADER_BYTES..FrameSize(s)] == s[HEADER_BYTES..FrameSize(s)];
  }

  /** The run is over where AfterRun stands. */
  lemma {:induction false} AfterRunStops(s: Bytes)
    ensures !Look(AfterRun(s)).Ping? && !Look(AfterRun(s)).Pong? && AfterRun(AfterRun(s)) == AfterRun(s)
    decreases |s|
  {
    hide DecodeHeader, Look, Frames, Run, AfterRun, Pongs;
    if Look(s).Ping? || Look(s).Pong? {
      FrameOfLook(s);
      RunStep(s);
      AfterRunStops(s[FrameSize(s)..]);
    } else {
      RunStops(s);
    }
  }

  /** All that can be seen of a connection. */
  predicate SameOutside(c: Link, d: Link) {
    && c.phase == d.phase && c.sent == d.sent && c.toBackend == d.toBackend
    && (c.phase == WaitingForLogin ==> c.prebuffer == d.prebuffer)
  }

  /** One more read takes the reference of a stream to that of the longer stream, unless the limit cuts in. */
  lemma ReadExtends(accept: bool, s: Bytes, t: Bytes)
    requires ReferencePhase(accept, s) == WaitingForLogin ==> t == [] || |AfterRun(s)| + |t| <= MAX_HANDSHAKE
    ensures SameOutside(OnRead(accept, Reference(accept, s), t), Reference(accept, s + t))
  {
    hide DecodeHeader, Look, Frames, Run, Pongs, AfterRun, Finish;
    if t == [] {
      assert s + t == s;
      return;
    }
    var rest := AfterRun(s);
    RunAppend(s, t);
    AfterRunStops(s);
    if Look(rest).NeedMore? {
      var c := Reference(accept, s);
      FinishIsReference(accept, c.(prebuffer := rest + t));
    } else {
      LookAppend(rest, t);
      RunStops(rest + t);
      assert Pongs(Run(Frames(s))) + [] == Pongs(Run(Frames(s)));
    }
  }

  /** Reads see only what can be seen. */
  lemma ReadSame(accept: bool, c: Link, d: Link, t: Bytes)
    requires SameOutside(c, d)
    ensures SameOutside(OnRead(accept, c, t), OnRead(accept, d, t))
  {
    hide Finish;
  }

  // ---------------------------------------------------------------------------
  // Theorems
  // ---------------------------------------------------------------------------

  /** No read comes upon an undecided buffer it does not fit beside. */
  ghost predicate ReadsFit(accept: bool, chunks: seq<Bytes>) {
    forall n | 0 <= n < |chunks| ::
      var s := Flatten(chunks[..n]);
      ReferencePhase(accept, s) == WaitingForLogin ==> chunks[n] == [] || |AfterRun(s)| + |chunks[n]| <= MAX_HANDSHAKE
  }

  lemma {:induction false} ReadsAreReference(accept: bool, chunks: seq<Bytes>)
    requires ReadsFit(accept, chunks)
    ensures SameOutside(ReadAll(accept, chunks), Reference(accept, Flatten(chunks)))
  {
    hide Reference, ReferencePhase, AfterRun, OnRead;
    if chunks == [] {
      ReferenceOfNothing(accept);
    } else {
      var n := |chunks| - 1;
      var front := chunks[..n];
      forall k | 0 <= k < n ensures chunks[..k] == front[..k] && chunks[k] == front[k] {}
      ReadsAreReference(accept, front);
      assert chunks[..n] == front;
      ReadExtends(accept, Flatten(front), chunks[n]);
      ReadSame(accept, ReadAll(accept, front), Reference(accept, Flatten(front)), chunks[n]);
    }
  }

  lemma ReferenceOfNothing(accept: bool)
    ensures Reference(accept, []) == FRESH
  {
    RunStops([]);
  }

  /** Undecided bytes are shorter than a login frame. */
  lemma UndecidedShort(s: Bytes)
    requires Look(s).NeedMore?
    ensures |s| < HEADER_BYTES + MAX_LOGIN
  {
  }

  /**
   The phase, the PONGs sent and the bytes handed to the backend are those of reading the whole stream at once, for
   every way of cutting it into reads of at most SAFE_READ bytes; the buffer limit never closes such a connection.
   */
  lemma HandshakeIndependent(accept: bool, chunks: seq<Bytes>)
    requires forall i | 0 <= i < |chunks| :: |chunks[i]| <= SAFE_READ
    ensures SameOutside(ReadAll(accept, chunks), Reference(accept, Flatten(chunks)))
  {
    hide Look, AfterRun, ReadAll, Reference, Flatten;
    forall n | 0 <= n < |chunks| && ReferencePhase(accept, Flatten(chunks[..n])) == WaitingForLogin
      ensures |AfterRun(Flatten(chunks[..n]))| + |chunks[n]| <= MAX_HANDSHAKE
    {
      UndecidedShort(AfterRun(Flatten(chunks[..n])));
    }
    ReadsAreReference(accept, chunks);
  }

  /** In particular for the reads a client connection makes. */
  lemma ClientReadsIndependent(accept: bool, chunks: seq<Bytes>)
    requires forall i | 0 <= i < |chunks| :: |chunks[i]| <= CLIENT_READ
    ensures SameOutside(ReadAll(accept, chunks), Reference(accept, Flatten(chunks)))
  {
    HandshakeIndependent(accept, chunks);
  }

  lemma {:induction false} BridgedReadsFit(accept: bool, chunks: seq<Bytes>)
    requires ReadAll(accept, chunks).phase != Stopped
    ensures ReadsFit(accept, chunks)
  {
    hide Reference, ReferencePhase, AfterRun, OnRead, Flatten;
    if chunks != [] {
      var n := |chunks| - 1;
      var front := chunks[..n];
      forall k | 0 <= k < n ensures chunks[..k] == front[..k] && chunks[k] == front[k] {}
      assert chunks[..n] == front;
      StillOpen(accept, ReadAll(accept, front), chunks[n]);
      BridgedReadsFit(accept, front);
      ReadsAreReference(accept, front);
      ReferenceShows(accept, Flatten(front));
    }
  }

  /** A read that leaves the connection open found it open and fitted. */
  lemma StillOpen(accept: bool, c: Link, data: Bytes)
    requires OnRead(accept, c, data).phase != Stopped
    ensures c.phase != Stopped && (c.phase == WaitingForLogin ==> data == [] || |c.prebuffer| + |data| <= MAX_HANDSHAKE)
  {
    hide Finish;
  }

  /** Exactly: the phase is the reference's, except that a read which does not fit closes the connection. */
  lemma PhaseExactly(accept: bool, chunks: seq<Bytes>)
    ensures ReadAll(accept, chunks).phase
            == if ReadsFit(accept, chunks) then ReferencePhase(accept, Flatten(chunks)) else Stopped
  {
    hide ReadAll, ReadsFit, ReferencePhase, Flatten, AfterRun;
    if ReadsFit(accept, chunks) {
      ReadsAreReference(accept, chunks);
      ReferenceShows(accept, Flatten(chunks));
    } else if ReadAll(accept, chunks).phase != Stopped {
      BridgedReadsFit(accept, chunks);
    }
  }

  lemma ReferenceShows(accept: bool, s: Bytes)
    ensures Reference(accept, s).phase == ReferencePhase(accept, s)
    ensures ReferencePhase(accept, s) == WaitingForLogin ==> Reference(accept, s).prebuffer == AfterRun(s)
  {
  }

  /**
   Transparency, for every cutting of the stream into reads of any size: once bridging, the backend has been handed
   exactly the client's bytes after the leading run of PING and PONG frames, starting with a login frame, and the client
   has been sent exactly one PONG for each PING of that run, in order.
   */
  lemma TransparentHandshake(accept: bool, chunks: seq<Bytes>)
    requires ReadAll(accept, chunks).phase == Bridging
    ensures var c, s := ReadAll(accept, chunks), Flatten(chunks);
            var run := Run(Frames(s));
            && s == Flatten(run) + c.toBackend && (forall i | 0 <= i < |run| :: IsControl(run[i]))
            && accept && Leads(c.toBackend, MSG_LOGIN_REQ) && c.sent == Pongs(run)
  {
    hide Look, ReadAll, Frames, Run, Flatten, Pongs, Leads;
    BridgedReadsFit(accept, chunks);
    ReadsAreReference(accept, chunks);
    RunIsPrefix(Flatten(chunks));
    RunIsControl(Frames(Flatten(chunks)));
    LookMeans(AfterRun(Flatten(chunks)));
  }

  /**
   A connection reaches the bridge if and only if the login is accepted, every read fits, and the first frame after the
   leading run is a login of allowed length; it waits while that frame is incomplete.
   */
  lemma BridgesExactly(accept: bool, chunks: seq<Bytes>)
    ensures var front := AfterRun(Flatten(chunks));
            && (ReadAll(accept, chunks).phase == Bridging <==>
                accept && ReadsFit(accept, chunks) && Leads(front, MSG_LOGIN_REQ))
            && (ReadAll(accept, chunks).phase == WaitingForLogin <==>
                && ReadsFit(accept, chunks)
                && (|front| < 14
                    || (DecodeHeader(front).length <= MAX_LOGIN && |front| < 14 + DecodeHeader(front).length)))
  {
    hide Look, ReadAll, ReadsFit, Frames, Run, Flatten, DecodeHeader, AfterRun, Leads;
    PhaseExactly(accept, chunks);
    LookMeans(AfterRun(Flatten(chunks)));
  }

  /** With the reads a client connection makes, the length of reads does not come into it. */
  lemma ClientBridgesExactly(accept: bool, chunks: seq<Bytes>)
    requires forall i | 0 <= i < |chunks| :: |chunks[i]| <= CLIENT_READ
    ensures ReadAll(accept, chunks).phase == Bridging <==> accept && Leads(AfterRun(Flatten(chunks)), MSG_LOGIN_REQ)
  {
    hide Look, ReadAll, Frames, Run, Flatten, DecodeHeader, AfterRun, Leads;
    ClientReadsIndependent(accept, chunks);
    LookMeans(AfterRun(Flatten(chunks)));
  }

  lemma {:induction false} RunIsControl(fs: seq<Bytes>)
    ensures forall i | 0 <= i < |Run(fs)| :: IsControl(Run(fs)[i])
  {
    hide IsControl;
    if fs != [] && IsControl(fs[0]) {
      RunIsControl(fs[1..]);
    }
  }

  /** Exactly one PONG per PING, in the order of the PINGs, each a mirror of its own. */
  lemma {:induction false} OnePongPerPing(fs: seq<Bytes>)
    requires forall i | 0 <= i < |fs| :: IsFrame(fs[i])
    ensures var pings := Pings(fs);
            && |Pongs(fs)| == |pings|
            && forall i | 0 <= i < |pings| ::
                 && IsFrame(Pongs(fs)[i]) && DecodeHeader(Pongs(fs)[i]) == DecodeHeader(pings[i]).(msgId := MSG_PONG)
                 && Pongs(fs)[i][HEADER_BYTES..] == pings[i][HEADER_BYTES..]
  {
    hide DecodeHeader, PongFor;
    if fs != [] {
      OnePongPerPing(fs[1..]);
      if IsPing(fs[0]) { PongMirrorsPing(fs[0]); }
    }
  }

  function Pings(fs: seq<Bytes>): (ps: seq<Bytes>)
    ensures forall i | 0 <= i < |ps| :: IsPing(ps[i])
  {
    if fs == [] then [] else (if IsPing(fs[0]) then [fs[0]] else []) + Pings(fs[1..])
  }

  // ---------------------------------------------------------------------------
  // The code
  // ---------------------------------------------------------------------------

  class GatewayConnection {
    var phase: Phase
    var prebuffer: Bytes
    ghost var sent: seq<Bytes>
    ghost var toBackend: Bytes

    constructor ()
      ensures Now() == FRESH
    {
      phase, prebuffer, sent, toBackend := WaitingForLogin, [], [], [];
    }

    ghost function Now(): Link
      reads this
    {
      Link(phase, prebuffer, sent, toBackend)
    }

    /** Work through the buffered frames; done says that the phase is decided, forward is what goes to the backend. */
    method TryFinishHandshake(accept: bool) returns (done: bool, forward: Bytes)
      requires phase == WaitingForLogin
      modifies this
      ensures Now() == Finish(accept, old(Now())) && (done <==> phase != WaitingForLogin)
      ensures toBackend == old(toBackend) + forward
    {
      hide DecodeHeader, PongFor, Finish;
      forward := [];
      while phase == WaitingForLogin
        invariant phase == WaitingForLogin && Finish(accept, Now()) == Finish(accept, old(Now()))
        invariant toBackend == old(toBackend) && forward == []
        decreases |prebuffer|
      {
        FinishUnfold(accept, Now());
        if |prebuffer| < HEADER_BYTES { return false, []; }
        var header := DecodeHeader(prebuffer);
        if header.length > MAX_LOGIN {
          phase := Stopped;
          return true, [];
        }
        var frameBytes := HEADER_BYTES + header.length;
        if |prebuffer| < frameBytes { return false, []; }
        if IsSystemMsgId(header.msgId) {
          if header.msgId == MSG_PING {
            var pong := MakeControlFrame(header, MSG_PONG, prebuffer[HEADER_BYTES..frameBytes]);
            PongForIs(prebuffer);
            sent := sent + [pong];
            prebuffer := prebuffer[frameBytes..];
            continue;
          }
          if header.msgId == MSG_PONG {
            prebuffer := prebuffer[frameBytes..];
            continue;
          }
          phase := Stopped;
          return true, [];
        }
        if header.msgId != MSG_LOGIN_REQ || !accept {
          phase := Stopped;
          return true, [];
        }
        forward := prebuffer;
        toBackend := toBackend + forward;
        prebuffer := [];
        phase := Bridging;
        return true, forward;
      }
      done := false;
    }

    method OnClientRead(accept: bool, data: Bytes) returns (forward: Bytes)
      modifies this
      ensures Now() == OnRead(accept, old(Now()), data) && toBackend == old(toBackend) + forward
      ensures old(phase) == Bridging ==> phase == Bridging && forward == data
    {
      hide Finish;
      forward := [];
      if data == [] || phase == Stopped { return; }
      if phase == WaitingForLogin {
        if |prebuffer| + |data| > MAX_HANDSHAKE {
          phase := Stopped;
          return;
        }
        prebuffer := prebuffer + data;
        var done;
        done, forward := TryFinishHandshake(accept);
        return;
      }
      forward := data;
      toBackend := toBackend + forward;
    }
  }

  method MakeControlFrame(header: Header, msgId: U16, payload: Bytes) returns (frame: Bytes)
    ensures frame == ControlFrame(header, msgId, payload)
    ensures |payload| <= MAX_BODY ==>
      IsFrame(frame) && DecodeHeader(frame) == Header(|payload|, msgId, header.flags, header.seqNo, header.stamp)
      && frame[HEADER_BYTES..] == payload
  {
    hide DecodeHeader, EncodeHeader;
    var response := Header(|payload| % 0x1_0000, msgId, header.flags, header.seqNo, header.stamp);
    HeaderRoundTrip(response, payload);
    frame := EncodeHeader(response) + payload;
  }

  lemma PongForIs(s: Bytes)
    requires HasFrame(s)
    ensures PongFor(s) == ControlFrame(DecodeHeader(s), MSG_PONG, s[HEADER_BYTES..FrameSize(s)])
  {
  }

  lemma FinishUnfold(accept: bool, c: Link)
    ensures Finish(accept, c) ==
            match Look(c.prebuffer)
            case NeedMore => c
            case Ping =>
              var sent := c.sent + [PongFor(c.prebuffer)];
              Finish(accept, c.(sent := sent, prebuffer := c.prebuffer[FrameSize(c.prebuffer)..]))
            case Pong => Finish(accept, c.(prebuffer := c.prebuffer[FrameSize(c.prebuffer)..]))
            case Login =>
              if accept then c.(phase := Bridging, prebuffer := [], toBackend := c.toBackend + c.prebuffer)
              else c.(phase := Stopped)
            case Bad => c.(phase := Stopped)
  {
  }
}
