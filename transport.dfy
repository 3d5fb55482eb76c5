/**
 * The in-memory transport of RpcGen.Sample/MockWebSocketTransport.cs: two transports that
 * point at each other, each with an inbound FIFO queue, a semaphore counting the signals
 * sent to it and a completed flag. Sending appends to the peer's queue; reading waits for a
 * signal and then drains the own queue.
 */
module MockTransport {
  import opened Wrappers
  import opened Json

  type Bytes = seq<Byte>

  const NotPaired: string := "Transport is not paired."

  /** One turn of ReadAsync's outer loop. */
  datatype ReadStep =
    | Stopped               // the loop check saw cancellation or completion: the enumeration ends
    | Canceled              // cancelled while suspended in WaitAsync: OperationCanceledException ends it
    | Waiting               // no signal yet: the reader stays suspended in WaitAsync
    | Yielded(messages: seq<Bytes>) // one signal taken, then every queued message in order

  class Transport {
    var inbound: seq<Bytes>
    var signals: nat
    var completed: bool
    var peer: Transport?
    var waiting: bool       // a reader is suspended in WaitAsync, past the loop check
    /** Everything ever enqueued here, and everything read out of here, in order. */
    ghost var received: seq<Bytes>
    ghost var delivered: seq<Bytes>

    /** Each message enqueued here is read at most once, in the order it was enqueued. */
    ghost predicate Fifo()
      reads this
    {
      received == delivered + inbound
    }

    constructor()
      ensures inbound == [] && signals == 0 && !completed && peer == null && !waiting
      ensures received == [] && delivered == [] && Fifo()
    {
      inbound := [];
      signals := 0;
      completed := false;
      peer := null;
      waiting := false;
      received := [];
      delivered := [];
    }

    /** CreatePair: two fresh transports, each the other's peer. */
    static method CreatePair() returns (a: Transport, b: Transport)
      ensures fresh(a) && fresh(b) && a != b
      ensures a.peer == b && b.peer == a
      ensures a.inbound == [] && b.inbound == [] && !a.completed && !b.completed
      ensures a.signals == 0 && b.signals == 0 && !a.waiting && !b.waiting
      ensures a.Fifo() && b.Fifo() && a.received == [] && b.received == []
    {
      a := new Transport();
      b := new Transport();
      a.peer := b;
      b.peer := a;
    }

    /** SendAsync: throw when unpaired, drop when the peer has completed, otherwise enqueue on the peer and signal it. */
    method SendAsync(data: Bytes) returns (r: Result<(), string>)
      modifies if peer == null then {} else {peer}
      ensures peer == old(peer)
      ensures peer == null ==> r == Failure(NotPaired)
      ensures peer != null && old(peer.completed) ==> r == Success(()) && unchanged(peer)
      ensures peer != null && !old(peer.completed) ==>
                r == Success(())
                && peer.inbound == old(peer.inbound) + [data]
                && peer.received == old(peer.received) + [data]
                && peer.delivered == old(peer.delivered)
                && peer.signals == old(peer.signals) + 1
                && peer.completed == old(peer.completed) && peer.peer == old(peer.peer)
                && peer.waiting == old(peer.waiting)
      ensures peer != null && old(peer.Fifo()) ==> peer.Fifo()
      ensures peer != this ==> inbound == old(inbound) && received == old(received)
    {
      if peer == null {
        return Failure(NotPaired);
      }
      if peer.completed {
        return Success(());
      }
      peer.inbound := peer.inbound + [data];
      peer.received := peer.received + [data];
      peer.signals := peer.signals + 1;
      return Success(());
    }

    /** The inner loop of ReadAsync: TryDequeue until the queue is empty, yielding each message. */
    method Drain() returns (messages: seq<Bytes>)
      modifies this
      ensures messages == old(inbound) && inbound == []
      ensures delivered == old(delivered) + messages && received == old(received)
      ensures signals == old(signals) && completed == old(completed) && peer == old(peer) && waiting == old(waiting)
      ensures old(Fifo()) ==> Fifo()
    {
      messages := [];
      while |inbound| > 0
        invariant old(inbound) == messages + inbound
        invariant delivered == old(delivered) + messages && received == old(received)
        invariant signals == old(signals) && completed == old(completed) && peer == old(peer) && waiting == old(waiting)
        decreases |inbound|
      {
        var msg := inbound[0];
        inbound := inbound[1..];
        delivered := delivered + [msg];
        messages := messages + [msg];
      }
    }

    /**
     * One turn of ReadAsync's outer loop. A reader at the loop check stops on cancellation or
     * completion; one past it (or still suspended in WaitAsync from an earlier turn) takes a
     * signal and drains the queue without looking at `completed` again, or stays suspended
     * while there is none, or ends with OperationCanceledException once cancellation is
     * requested. A signal already released has woken the reader before cancellation is seen.
     */
    method ReadTurn(cancelled: bool) returns (step: ReadStep)
      modifies this
      ensures !old(waiting) && (cancelled || old(completed)) ==> step == Stopped && unchanged(this)
      ensures (old(waiting) || (!cancelled && !old(completed))) && old(signals) > 0 ==>
                step == Yielded(old(inbound)) && inbound == [] && signals == old(signals) - 1 && !waiting
                && delivered == old(delivered) + old(inbound)
      ensures old(waiting) && old(signals) == 0 && cancelled ==> step == Canceled && !waiting
      ensures (old(waiting) || (!cancelled && !old(completed))) && old(signals) == 0 && !(old(waiting) && cancelled) ==>
                step == Waiting && waiting
      ensures step.Canceled? || step.Waiting? ==>
                inbound == old(inbound) && signals == old(signals) && delivered == old(delivered)
      ensures completed == old(completed) && peer == old(peer) && received == old(received)
      ensures old(Fifo()) ==> Fifo()
    {
      if !waiting && (cancelled || completed) {
        return Stopped;
      }
      if signals == 0 {
        if waiting && cancelled {
          waiting := false;
          return Canceled;
        }
        waiting := true;
        return Waiting;
      }
      signals := signals - 1;
      waiting := false;
      var messages := Drain();
      return Yielded(messages);
    }

    /** Complete: set the flag and release the semaphore once, so a waiting reader wakes and stops. */
    method Complete()
      modifies this
      ensures completed && signals == old(signals) + 1
      ensures inbound == old(inbound) && peer == old(peer) && waiting == old(waiting)
      ensures received == old(received) && delivered == old(delivered)
    {
      completed := true;
      signals := signals + 1;
    }
  }

  /** Messages a sends to a paired b arrive in b's queue behind what is already there, in order. */
  method SendTwice(a: Transport, b: Transport, x: Bytes, y: Bytes) returns (r1: Result<(), string>, r2: Result<(), string>)
    requires a.peer == b && a != b && !b.completed && b.Fifo()
    modifies b
    ensures r1.Success? && r2.Success?
    ensures b.inbound == old(b.inbound) + [x, y] && b.Fifo()
    ensures a.inbound == old(a.inbound)
  {
    r1 := a.SendAsync(x);
    r2 := a.SendAsync(y);
  }

  /** After Complete, a send from the peer is dropped and a reader at the loop check stops. */
  method CompleteThenSend(a: Transport, b: Transport, x: Bytes) returns (r: Result<(), string>, step: ReadStep)
    requires a.peer == b && a != b && !b.waiting
    modifies b
    ensures r.Success? && step == Stopped
    ensures b.inbound == old(b.inbound) && b.completed
  {
    b.Complete();
    r := a.SendAsync(x);
    step := b.ReadTurn(false);
  }

  /**
   * A reader already suspended in WaitAsync loses nothing to a Complete that follows a send:
   * the send's signal wakes it, it yields the message, and only the next turn stops.
   */
  method WaitSendComplete(a: Transport, b: Transport, x: Bytes) returns (first: ReadStep, second: ReadStep, third: ReadStep)
    requires a.peer == b && a != b
    requires b.inbound == [] && b.signals == 0 && !b.completed && !b.waiting && b.Fifo()
    modifies b
    ensures first == Waiting && second == Yielded([x]) && third == Stopped
    ensures b.delivered == old(b.delivered) + [x] && b.inbound == [] && b.Fifo()
  {
    first := b.ReadTurn(false);
    var r := a.SendAsync(x);
    b.Complete();
    second := b.ReadTurn(false);
    third := b.ReadTurn(false);
  }
}
