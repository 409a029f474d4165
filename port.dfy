/**
 * The `Port` object: a packet queue updated in place plus the port's READABLE
 * signal bit. The lock, the `Arc` sharing and the waiting itself are not modelled;
 * waiting shows up only as the precondition `readable` of WaitAsync.
 */
module PortObject {
  import opened Packets
  import opened PortSpec

  class Port {
    /** `PortInner::queue`, oldest packet first. */
    var queue: seq<PortPacket>
    /** The READABLE bit of the port's own signal state. */
    var readable: bool

    /** Every packet ever pushed, and every packet handed out by a drain, in order. */
    ghost var pushed: seq<PortPacket>
    ghost var delivered: seq<PortPacket>

    /** The queue and the signal bit as one value. */
    function State(): PortState
      reads this
    {
      PortState(queue, readable)
    }

    /**
     * READABLE agrees with the queue, and what was delivered followed by what is
     * queued is exactly what was pushed: nothing lost, nothing repeated.
     */
    ghost predicate Valid()
      reads this
    {
      Consistent(State()) && delivered + queue == pushed
    }

    /** `Port::new`. */
    constructor ()
      ensures Valid()
      ensures State() == Init() && queue == [] && !readable
      ensures pushed == [] && delivered == []
    {
      queue := [];
      readable := false;
      pushed := [];
      delivered := [];
    }

    /** `Port::push`: append `packet` at the tail, then raise READABLE. */
    method Push(packet: PortPacket)
      requires Valid()
      modifies this
      ensures Valid()
      ensures State() == Enqueue(old(State()), packet)
      ensures queue == old(queue) + [packet] && readable
      ensures pushed == old(pushed) + [packet] && delivered == old(delivered)
    {
      queue := queue + [packet];
      pushed := pushed + [packet];
      readable := true;
    }

    /**
     * `Port::wait_async` once READABLE is set: clear READABLE and swap the queue
     * for an empty one, returning what it held.
     */
    method WaitAsync() returns (packets: seq<PortPacket>)
      requires Valid()
      requires readable
      modifies this
      ensures Valid()
      ensures (State(), packets) == Take(old(State()))
      ensures packets == old(queue) && packets != []
      ensures queue == [] && !readable
      ensures delivered == old(delivered) + packets && pushed == old(pushed)
    {
      readable := false;
      packets := queue;
      queue := [];
      delivered := delivered + packets;
    }

    /** `Port::len`: the number of packets waiting. */
    method Len() returns (n: nat)
      ensures n == |queue|
    {
      n := |queue|;
    }
  }

  /**
   * The source's `wait_async` test, with the signal-to-port bridge replaced by the
   * push it performs: the first drain sees only the key-1 packet, the second only
   * the key-2 packet, and the port ends empty.
   */
  method WaitAsyncRounds() returns (first: seq<PortPacket>, second: seq<PortPacket>, left: nat)
    ensures first == [PortPacket(1, OK, Signal(READABLE))]
    ensures second == [PortPacket(2, OK, Signal(WRITABLE))]
    ensures left == 0
  {
    var port := new Port();
    port.Push(PortPacket(1, OK, Signal(READABLE)));
    first := port.WaitAsync();
    port.Push(PortPacket(2, OK, Signal(WRITABLE)));
    second := port.WaitAsync();
    left := port.Len();
  }
}
