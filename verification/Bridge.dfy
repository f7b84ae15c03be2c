/** The whole way from the client's socket to the backend's: the handshake in front of the send queue. */
module Bridge {
  import opened Handshake
  import opened Numbers
  import opened Options
  import opened Packet
  import opened SendQueue
  import opened Sequences

  /**
   chunks: everything read from the client. accept: the answer of the login checks. hole: a read was refused for want of
   room, after so many bytes, while somebody else was already closing, so that a later read may have been taken before
   the close.
   */
  class ClientBridge {
    const client: GatewayConnection
    const backend: BackendConnection
    const accept: bool
    ghost var chunks: seq<Bytes>
    ghost var hole: Option<nat>

    ghost predicate Valid()
      reads this, client, backend
    {
      && backend.Valid() && client.Now() == ReadAll(accept, chunks)
      && InStep(hole, backend.closed, backend.accepted, client.toBackend)
    }

    constructor (accept: bool, maxBytes: nat)
      ensures Valid() && fresh(client) && fresh(backend) && hole.None? && chunks == [] && this.accept == accept
      ensures backend.limit == (if maxBytes > 0 then maxBytes else DEFAULT_LIMIT) && backend.queue == []
      ensures !backend.connected && !backend.closed && !backend.failed && backend.written == []
    {
      var c := new GatewayConnection();
      var b := new BackendConnection(maxBytes);
      this.accept, client, backend, chunks, hole := accept, c, b, [], None;
    }

    /**
     A read of the client's socket: what it calls for goes into the backend's queue if there is room.
     closing: a close is already under way elsewhere, so one for want of room is not at once.
     */
    method Read(data: Bytes, closing: bool) returns (forward: Bytes)
      requires Valid()
      modifies this, client, backend
      ensures Valid() && chunks == old(chunks) + [data] && client.toBackend == old(client.toBackend) + forward
      ensures old(client.phase) == Bridging ==> client.phase == Bridging && forward == data
      ensures var fits := old(backend.queued) + |forward| <= backend.limit;
              && (hole.Some? <==> old(hole.Some?) || (closing && forward != [] && !old(backend.closed) && !fits))
              && (hole.Some? ==> hole == if old(hole.Some?) then old(hole) else Some(|old(backend.accepted)|))
              && (forward != [] && !old(backend.closed) && fits ==>
                    backend.queue == old(backend.queue) + [forward] && !backend.closed)
              && ((forward == [] || !fits) && closing ==>
                    && backend.queue == old(backend.queue) && backend.flying == old(backend.flying)
                    && backend.closed == old(backend.closed))
      ensures backend.written == old(backend.written) && backend.failed == old(backend.failed)
      ensures backend.closed == old(backend.closed) ==> backend.connected == old(backend.connected)
    {
      hide ReadAll, OnRead, Flatten, Total, InStep;
      ReadAllSnoc(accept, chunks, data);
      forward := client.OnClientRead(accept, data);
      var _, overflow := backend.Send(forward, !closing);
      Onward(hole, old(backend.closed), old(backend.accepted), old(client.toBackend), forward);
      chunks := chunks + [data];
      if hole.None? && overflow && closing { hole := Some(|backend.accepted|); }
    }

    /** The connect failed and is tried again. */
    method Retry()
      requires Valid() && !backend.connected
      modifies backend
      ensures Valid() && !backend.connected && backend.queue == old(backend.queue)
    {
      hide ReadAll;
      backend.CloseSocketForRetry();
    }

    method Connected()
      requires Valid() && !backend.connected
      modifies backend
      ensures Valid() && backend.queue == old(backend.queue) && backend.written == old(backend.written)
      ensures backend.closed == old(backend.closed) && backend.failed == old(backend.failed)
      ensures !backend.closed ==> backend.connected && (backend.queue != [] ==> backend.flying == [backend.queue[0]])
    {
      hide ReadAll;
      backend.OnConnected();
    }

    method Written(ok: bool, aborted: bool, packetSize: nat, atOnce: bool, ghost sent: nat)
      requires Valid() && backend.flying != [] && packetSize == |backend.flying[0]| && sent <= packetSize
      requires aborted ==> !ok && backend.closed
      modifies backend
      ensures Valid()
      ensures backend.written == old(backend.written) + if ok then old(backend.flying)[0]
                                                        else old(backend.flying)[0][..sent]
      ensures ok && !old(backend.closed) ==>
                && backend.queue == old(backend.queue)[1..] && !backend.closed && !backend.failed
                && backend.connected == old(backend.connected)
    {
      hide ReadAll;
      backend.OnWritten(ok, aborted, packetSize, atOnce, sent);
    }

    method CloseBackend()
      requires Valid()
      modifies backend
      ensures Valid() && backend.closed
    {
      hide ReadAll;
      backend.Close();
    }

    /**
     End to end, for every cutting of the client's stream and at every moment: what has reached the backend's socket is,
     up to a hole if there is one, the beginning of the client's stream after its leading run of PING and PONG frames,
     and nothing before a login.
     */
    lemma EndToEnd()
      requires Valid()
      ensures var s, n := Flatten(chunks), |backend.written|;
              var sound := if hole.None? then n else Min(n, hole.value);
              && Flatten(Run(Frames(s))) + backend.written[..sound] <= s
              && (backend.written != [] ==>
                    client.phase == Bridging && accept && Leads(client.toBackend, MSG_LOGIN_REQ))
    {
      hide ReadAll, Frames, Run, Leads, Flatten, Pongs, InStep;
      var s, n := Flatten(chunks), |backend.written|;
      var sound := if hole.None? then n else Min(n, hole.value);
      RunIsPrefix(s);
      NothingBeforeBridging(accept, chunks);
      WrittenInStep(hole, backend.closed, backend.accepted, client.toBackend, backend.written);
      if client.phase == Bridging {
        TransparentHandshake(accept, chunks);
        PrefixAfter(Flatten(Run(Frames(s))), backend.written[..sound], client.toBackend);
      }
    }
  }

  lemma WrittenInStep(hole: Option<nat>, closed: bool, accepted: Bytes, handed: Bytes, written: Bytes)
    requires InStep(hole, closed, accepted, handed) && written <= accepted
    ensures written[..if hole.None? then |written| else Min(|written|, hole.value)] <= handed
    ensures written != [] ==> handed != []
  {
  }

  lemma PrefixAfter(run: Bytes, part: Bytes, whole: Bytes)
    requires part <= whole
    ensures run + part <= run + whole
  {
  }

  /** The queue has taken what was handed over: all of it until a close, and without a hole always a beginning. */
  ghost predicate InStep(hole: Option<nat>, closed: bool, accepted: Bytes, handed: Bytes) {
    && (accepted != [] ==> handed != [])
    && (if hole.None? then accepted <= handed && (!closed ==> accepted == handed)
        else hole.value <= |accepted| && hole.value <= |handed| && accepted[..hole.value] == handed[..hole.value])
  }

  /** What the next read does to it, whether it is taken, ignored after a close, or refused. */
  lemma Onward(hole: Option<nat>, closed: bool, accepted: Bytes, handed: Bytes, more: Bytes)
    requires InStep(hole, closed, accepted, handed)
    ensures !closed ==> InStep(hole, false, accepted + more, handed + more)
    ensures InStep(hole, true, accepted, handed + more)
    ensures more == [] ==> InStep(hole, closed, accepted, handed + more)
    ensures !closed ==> InStep(if hole.None? then Some(|accepted|) else hole, false, accepted, handed + more)
  {
    if hole.None? && !closed { assert (handed + more)[..|accepted|] == accepted; }
    if hole.Some? {
      assert (accepted + more)[..hole.value] == accepted[..hole.value];
      assert (handed + more)[..hole.value] == handed[..hole.value];
    }
  }

  /** The login fills the backend's queue and is being written. */
  method FillQueue(login: Bytes) returns (bridge: ClientBridge)
    requires Look(login).Login? && |login| <= MAX_HANDSHAKE
    ensures fresh(bridge) && fresh(bridge.client) && fresh(bridge.backend) && bridge.Valid()
    ensures bridge.accept && bridge.client.phase == Bridging && bridge.client.toBackend == login
    ensures bridge.backend.limit == |login| && bridge.backend.connected && bridge.backend.written == []
    ensures bridge.backend.queue == [login] && bridge.backend.flying == [login] && !bridge.backend.closed
    ensures !bridge.backend.failed && bridge.hole.None?
  {
    hide Look, ReadAll, Flatten, Total;
    LoginBridges(login);
    QueueOfOne(login);
    bridge := new ClientBridge(true, |login|);
    var first := bridge.Read(login, true);
    assert bridge.chunks == [login];
    assert first == login;
    bridge.Connected();
  }

  /**
   A connection with a hole: a byte is refused while somebody else is already closing, and before that close the login
   is written and one more byte taken. What was written is then not a beginning of what it should be.
   */
  method RefusalLeavesHole(login: Bytes) returns (bridge: ClientBridge)
    requires Look(login).Login? && |login| <= MAX_HANDSHAKE
    ensures bridge.Valid() && bridge.hole == Some(|login|)
    ensures var s := Flatten(bridge.chunks); !(Flatten(Run(Frames(s))) + bridge.backend.written <= s)
  {
    hide Look, Frames, Run, Pongs, ReadAll, Flatten;
    bridge := FillQueue(login);
    QueueOfOne(login);
    var _ := bridge.Read([0], true);
    bridge.Written(true, false, |login|, false, 0);
    var _ := bridge.Read([1], true);
    bridge.Written(true, false, 1, false, 0);
    TransparentHandshake(true, bridge.chunks);
    NotBeginning(login, Flatten(Run(Frames(Flatten(bridge.chunks)))), Flatten(bridge.chunks));
  }

  lemma QueueOfOne(payload: Bytes)
    ensures Total([payload]) == |payload| && Total([]) == 0
  {
  }

  lemma NotBeginning(login: Bytes, run: Bytes, s: Bytes)
    requires s == run + (login + [0] + [1])
    ensures !(run + (login + [1]) <= s)
  {
    assert s[|run + login|] == 0 && (run + (login + [1]))[|run + login|] == 1;
  }

  lemma LoginBridges(login: Bytes)
    requires Look(login).Login? && |login| <= MAX_HANDSHAKE
    ensures login != [] && ReadAll(true, []) == FRESH && ReadAll(true, [login]) == Link(Bridging, [], [], login)
  {
    assert [] + login == login && [login][..0] == [];
  }

  lemma ReadAllSnoc(accept: bool, chunks: seq<Bytes>, data: Bytes)
    ensures ReadAll(accept, chunks + [data]) == OnRead(accept, ReadAll(accept, chunks), data)
  {
    assert (chunks + [data])[..|chunks|] == chunks;
  }

  /** Only a bridging connection has handed anything to the backend. */
  lemma {:induction false} NothingBeforeBridging(accept: bool, chunks: seq<Bytes>)
    ensures ReadAll(accept, chunks).phase != Bridging ==> ReadAll(accept, chunks).toBackend == []
  {
    hide Finish;
    if chunks != [] {
      var c := ReadAll(accept, chunks[..|chunks| - 1]);
      NothingBeforeBridging(accept, chunks[..|chunks| - 1]);
      if c.phase == WaitingForLogin {
        FinishForwards(accept, c.(prebuffer := c.prebuffer + chunks[|chunks| - 1]));
      }
    }
  }

  lemma {:induction false} FinishForwards(accept: bool, c: Link)
    requires c.phase == WaitingForLogin && c.toBackend == []
    ensures Finish(accept, c).phase != Bridging ==> Finish(accept, c).toBackend == []
    decreases |c.prebuffer|
  {
    hide DecodeHeader, PongFor;
    var s := c.prebuffer;
    if Look(s).Ping? {
      FinishForwards(accept, c.(sent := c.sent + [PongFor(s)], prebuffer := s[FrameSize(s)..]));
    } else if Look(s).Pong? {
      FinishForwards(accept, c.(prebuffer := s[FrameSize(s)..]));
    }
  }
}
