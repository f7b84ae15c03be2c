/**
 The two send queues: the client side's Connection, whose handlers a strand serialises, and the BackendConnection, whose
 handlers a mutex serialises and which also buffers before the connect. In each class Valid is what every handler keeps.
 */
module SendQueue {
  import opened Numbers
  import opened Packet
  import opened Sequences

  const DEFAULT_LIMIT: nat := 256 * 1024

  function Total(queue: seq<Bytes>): nat {
    if queue == [] then 0 else |queue[0]| + Total(queue[1..])
  }

  lemma {:induction false} TotalSnoc(queue: seq<Bytes>, p: Bytes)
    ensures Total(queue + [p]) == Total(queue) + |p|
  {
    if queue == [] {
      assert queue + [p] == [p] && [p][1..] == [];
    } else {
      TotalSnoc(queue[1..], p);
      assert (queue + [p])[1..] == queue[1..] + [p];
    }
  }

  /** The head of the queue is the next part of its contents. */
  lemma HeadFirst(queue: seq<Bytes>)
    requires queue != []
    ensures Flatten(queue) == queue[0] + Flatten(queue[1..]) && Total(queue) == |queue[0]| + Total(queue[1..])
  {
    assert queue == [queue[0]] + queue[1..];
    FlattenCons(queue[0], queue[1..]);
  }

  /** Taking a payload in at the back. */
  lemma TakeIn(accepted: Bytes, written: Bytes, queue: seq<Bytes>, payload: Bytes)
    requires accepted == written + Flatten(queue)
    ensures accepted + payload == written + Flatten(queue + [payload])
    ensures Total(queue + [payload]) == Total(queue) + |payload|
    ensures queue == [] ==> written + payload <= accepted + payload
  {
    hide Flatten, Total;
    FlattenSnoc(queue, payload);
    TotalSnoc(queue, payload);
    if queue == [] { FlattenNone(); }
  }

  lemma FlattenNone()
    ensures Flatten<Byte>([]) == [] && Total([]) == 0
  {
  }

  /** Writing the head out at the front. */
  lemma WriteOut(accepted: Bytes, written: Bytes, queue: seq<Bytes>)
    requires accepted == written + Flatten(queue) && queue != []
    ensures accepted == written + queue[0] + Flatten(queue[1..]) && Total(queue) == |queue[0]| + Total(queue[1..])
    ensures written + queue[0] <= accepted && (|queue| > 1 ==> written + queue[0] + queue[1] <= accepted)
  {
    hide Flatten, Total;
    HeadFirst(queue);
    assert written + queue[0] + Flatten(queue[1..]) == written + (queue[0] + Flatten(queue[1..]));
    if |queue| > 1 {
      HeadFirst(queue[1..]);
      assert written + queue[0] + (queue[1] + Flatten(queue[1..][1..])) ==
        written + queue[0] + queue[1] + Flatten(queue[1..][1..]);
    }
  }

  lemma PartWritten(accepted: Bytes, written: Bytes, packet: Bytes, sent: nat)
    requires written + packet <= accepted && sent <= |packet|
    ensures written + packet[..sent] <= accepted
  {
  }

  // ---------------------------------------------------------------------------
  // The two budget tests
  // ---------------------------------------------------------------------------

  /** Subtraction that stops at zero. */
  function Less(a: nat, b: nat): nat {
    if a >= b then a - b else 0
  }

  /** Connection's test. */
  predicate ExceedsRemaining(limit: nat, queued: nat, size: nat) {
    limit > 0 && size > limit - Min(limit, queued)
  }

  /** BackendConnection's test. */
  predicate ExceedsQueueBudget(limit: nat, queued: nat, size: nat) {
    limit != 0 && (size > limit || queued > limit - size)
  }

  /** Both say that the new total would pass the limit, as long as the queue is within it. */
  lemma BudgetTestsAgree(limit: nat, queued: nat, size: nat)
    ensures limit > 0 && queued <= limit ==>
              (ExceedsRemaining(limit, queued, size) <==> queued + size > limit)
              && (ExceedsQueueBudget(limit, queued, size) <==> queued + size > limit)
    ensures (ExceedsRemaining(limit, queued, size) <==> ExceedsQueueBudget(limit, queued, size))
            <==> limit == 0 || queued <= limit || size > 0
  {
  }

  // ---------------------------------------------------------------------------
  // The connection to the client
  // ---------------------------------------------------------------------------

  /**
   accepted: all payloads taken into the queue, one after the other. written: the bytes that reached the socket.
   flying: the buffers of writes started and not yet completed. failed: a write ended in an error. final: finalize_stop
   ran.
   */
  class Connection {
    const limit: nat
    var queue: seq<Bytes>
    var queued: nat
    var stopped: bool
    ghost var flying: seq<Bytes>
    ghost var written: Bytes
    ghost var accepted: Bytes
    ghost var failed: bool
    ghost var final: bool

    ghost predicate Valid()
      reads this
    {
      // accounting
      && queued == Total(queue) && (limit > 0 ==> queued <= limit)
      // one write at a time, and always one while there is something to write
      && |flying| <= 1 && (queue != [] && !stopped ==> flying != [])
      // order: what was written, then what is in flight, are the first accepted bytes
      && written <= accepted && (flying != [] ==> written + flying[0] <= accepted)
      && (!final && !failed ==> accepted == written + Flatten(queue))
      && (!final && flying != [] ==> queue != [] && flying[0] == queue[0])
      && (failed ==> stopped && flying == []) && (final ==> stopped && queue == [])
    }

    constructor (limit: nat)
      ensures Valid() && this.limit == limit && !stopped && accepted == [] && written == []
    {
      this.limit := limit;
      queue, queued, stopped := [], 0, false;
      flying, written, accepted, failed, final := [], [], [], false, false;
    }

    /** The posted half of async_send. */
    method AsyncSend(payload: Bytes) returns (taken: bool)
      requires Valid()
      modifies this
      ensures Valid() && written == old(written)
      ensures taken <==> !old(stopped) && (limit == 0 || old(queued) + |payload| <= limit)
      ensures taken ==> queue == old(queue) + [payload] && accepted == old(accepted) + payload && !stopped
      ensures !taken ==> accepted == old(accepted) && stopped && (old(stopped) ==> queue == old(queue))
    {
      hide Flatten, Total;
      if stopped { return false; }
      BudgetTestsAgree(limit, queued, |payload|);
      if limit > 0 {
        var remaining := limit - Min(limit, queued);
        if |payload| > remaining {
          Stop();
          return false;
        }
      }
      var idle := queue == [];
      TakeIn(accepted, written, queue, payload);
      queued := queued + |payload|;
      queue := queue + [payload];
      accepted := accepted + payload;
      if idle {
        DoWrite();
      }
      taken := true;
    }

    method DoWrite()
      modifies `flying
      ensures flying == if queue == [] then old(flying) else old(flying) + [queue[0]]
    {
      if queue == [] { return; }
      flying := flying + [queue[0]];
    }

    /** A write completed, or ended in an error after sent bytes. */
    method HandleWrite(ok: bool, packetSize: nat, ghost sent: nat)
      requires Valid() && flying != [] && packetSize == |flying[0]| && sent <= packetSize
      modifies this
      ensures Valid() && accepted == old(accepted)
      ensures written == old(written) + if ok then old(flying)[0] else old(flying)[0][..sent]
      ensures ok && !old(final) ==> queue == old(queue)[1..] && stopped == old(stopped)
      ensures !ok ==> stopped && failed
    {
      hide Flatten, Total;
      ghost var packet := flying[0];
      flying := [];
      PartWritten(accepted, written, packet, sent);
      if !ok {
        written := written + packet[..sent];
        failed := true;
        Stop();
        return;
      }
      if final { FlattenNone(); } else { WriteOut(accepted, written, queue); }
      written := written + packet;
      queued := Less(queued, packetSize);
      if queue != [] {
        queue := queue[1..];
      }
      if queue != [] {
        DoWrite();
      }
    }

    /** stop called on the strand: it is finalised at once, unless an earlier stop is still to be. */
    method Stop()
      requires queued == Total(queue) && (limit > 0 ==> queued <= limit) && |flying| <= 1 && (failed ==> flying == [])
      requires written <= accepted && (flying != [] ==> written + flying[0] <= accepted)
      requires (final ==> stopped && queue == [])
      requires !final && !failed ==> accepted == written + Flatten(queue)
      requires !final && flying != [] ==> queue != [] && flying[0] == queue[0]
      modifies `stopped, `queue, `queued, `final
      ensures Valid() && stopped && (old(stopped) ==> queue == old(queue) && final == old(final))
      ensures (!old(stopped) ==> final)
    {
      if stopped { return; }
      stopped := true;
      FinalizeStop();
    }

    /** stop called from elsewhere: only the flag, the rest follows on the strand. */
    method StopElsewhere()
      requires Valid()
      modifies `stopped
      ensures Valid() && stopped
    {
      stopped := true;
    }

    method FinalizeStop()
      requires stopped && |flying| <= 1 && (failed ==> flying == [])
      requires written <= accepted && (flying != [] ==> written + flying[0] <= accepted)
      modifies `queue, `queued, `final
      ensures Valid() && final && queue == []
    {
      queue, queued, final := [], 0, true;
    }
  }

  // ---------------------------------------------------------------------------
  // The connection to the backend
  // ---------------------------------------------------------------------------

  class BackendConnection {
    const limit: nat
    var queue: seq<Bytes>
    var queued: nat
    var connected: bool
    var writing: bool
    var closed: bool
    ghost var flying: seq<Bytes>
    ghost var written: Bytes
    ghost var accepted: Bytes
    ghost var failed: bool

    ghost predicate Valid()
      reads this
    {
      // accounting
      && limit > 0 && queued == Total(queue) && queued <= limit
      // nothing is written before the connect; after it, one write at a time while there is something to write
      && |flying| <= 1 && (!connected && !closed ==> flying == [] && !writing && written == [] && !failed)
      && (connected && queue != [] && !closed ==> writing) && (flying != [] && !closed ==> writing)
      && (writing && !failed && !closed ==> flying != [])
      // order
      && written <= accepted && (flying != [] ==> written + flying[0] <= accepted)
      && (!closed && !failed ==> accepted == written + Flatten(queue))
      && (!closed && flying != [] ==> queue != [] && flying[0] == queue[0])
      // after a failed write nothing more is written, even before the close that it leads to
      && (failed ==> flying == [] && (closed || writing)) && (closed ==> queue == [] && !connected)
    }

    constructor (maxBytes: nat)
      ensures Valid() && limit == (if maxBytes > 0 then maxBytes else DEFAULT_LIMIT)
      ensures !connected && !closed && !failed && queue == [] && accepted == [] && written == []
    {
      limit := if maxBytes > 0 then maxBytes else DEFAULT_LIMIT;
      queue, queued, connected, writing, closed := [], 0, false, false, false;
      flying, written, accepted, failed := [], [], [], false;
    }

    /**
     Both overloads of send. An overflow is reported to the client connection, whose stop closes this one: at once when
     the caller runs on its strand, later otherwise. Without a client connection the close is immediate.
     */
    method Send(payload: Bytes, atOnce: bool) returns (taken: bool, overflow: bool)
      requires Valid()
      modifies this
      ensures Valid() && written == old(written) && failed == old(failed)
      ensures taken <==> payload != [] && !old(closed) && old(queued) + |payload| <= limit
      ensures overflow <==> payload != [] && !old(closed) && old(queued) + |payload| > limit
      ensures taken ==> queue == old(queue) + [payload] && accepted == old(accepted) + payload && !closed
      ensures !taken ==> accepted == old(accepted) && closed == (old(closed) || (overflow && atOnce))
      ensures !taken && closed == old(closed) ==> queue == old(queue) && flying == old(flying)
      ensures closed == old(closed) ==> connected == old(connected)
    {
      hide Flatten, Total;
      if payload == [] || closed { return false, false; }
      BudgetTestsAgree(limit, queued, |payload|);
      if ExceedsQueueBudget(limit, queued, |payload|) {
        if atOnce { Close(); }
        return false, true;
      }
      if failed { TotalSnoc(queue, payload); } else { TakeIn(accepted, written, queue, payload); }
      queued := queued + |payload|;
      queue := queue + [payload];
      accepted := accepted + payload;
      if connected && !writing {
        DoWrite();
      }
      taken, overflow := true, false;
    }

    method DoWrite()
      modifies `flying, `writing
      ensures writing == (queue != []) && flying == if queue == [] then old(flying) else old(flying) + [queue[0]]
    {
      if queue == [] {
        writing := false;
        return;
      }
      writing := true;
      flying := flying + [queue[0]];
    }

    /** The connect succeeded: what was queued before it is written first. */
    method OnConnected()
      requires Valid() && !connected
      modifies this
      ensures Valid() && queue == old(queue) && accepted == old(accepted) && written == old(written)
      ensures failed == old(failed)
      ensures closed == old(closed)
      ensures !old(closed) ==> connected && (queue != [] ==> flying == [queue[0]])
    {
      hide Flatten, Total;
      if closed { return; }
      connected := true;
      if queue != [] {
        WriteOut(accepted, written, queue);
        DoWrite();
      }
    }

    /** A connect attempt failed and another follows: the queue is kept. */
    method CloseSocketForRetry()
      requires Valid() && !connected
      modifies `connected, `writing
      ensures Valid() && !connected && !writing
    {
      connected, writing := false, false;
    }

    /** A write completed (ok), was aborted, or failed after sent bytes; an error is reported as an overflow is. */
    method OnWritten(ok: bool, aborted: bool, packetSize: nat, atOnce: bool, ghost sent: nat)
      requires Valid() && flying != [] && packetSize == |flying[0]| && sent <= packetSize && (aborted ==> !ok && closed)
      modifies this
      ensures Valid() && accepted == old(accepted)
      ensures written == old(written) + if ok then old(flying)[0] else old(flying)[0][..sent]
      ensures ok && !old(closed) ==> queue == old(queue)[1..] && !closed && !failed && connected == old(connected)
      ensures closed == (old(closed) || (!ok && atOnce)) && (!ok && !old(closed) ==> failed)
    {
      hide Flatten, Total;
      ghost var packet := flying[0];
      flying := [];
      PartWritten(accepted, written, packet, sent);
      if aborted || closed {
        written := written + if ok then packet else packet[..sent];
        return;
      }
      if !ok {
        written := written + packet[..sent];
        failed := true;
        if atOnce { Close(); }
        return;
      }
      WriteOut(accepted, written, queue);
      written := written + packet;
      queued := Less(queued, packetSize);
      queue := queue[1..];
      if queue != [] {
        DoWrite();
      } else {
        writing := false;
      }
    }

    method Close()
      requires |flying| <= 1 && written <= accepted && (flying != [] ==> written + flying[0] <= accepted) && limit > 0
      requires (closed ==> Valid()) && (failed ==> flying == [])
      modifies `closed, `queue, `queued, `connected, `writing
      ensures Valid() && closed
    {
      if closed { return; }
      closed := true;
      queue, queued, connected, writing := [], 0, false, false;
    }
  }
}
