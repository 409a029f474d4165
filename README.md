# Port: the sequential core of zCore's Zircon port object

A Zircon `Port` is a mailbox. Producers push `PortPacket`s into it. A consumer waits until
the port's `READABLE` signal is raised, then takes the whole batch of queued packets at once.
This project models the sequential state machine behind `zircon-object/src/signal/port.rs`.

- `packets.dfy` (module `Packets`) holds the packet record. A packet has a `u64` key, a
  `ZxError` status and a payload. The payload is either `Signal(bits)` or `User` with exactly
  32 bytes.
- `port_spec.dfy` (module `PortSpec`) gives the port state as a value: the queue plus the
  `READABLE` bit. It defines the three steps `Init` (`Port::new`), `Enqueue` (`Port::push`) and
  `Take` (the drain half of `Port::wait_async`). `Execute` runs a sequence of pushes and waits on
  a fresh port. A wait that finds `READABLE` clear never resumes, because nobody else pushes.
  The lemmas about `Execute` cover three facts: the invariant, exactly-once delivery, and that
  the queue holds what was pushed since the last drain.
- `port.dfy` (module `PortObject`) has the `Port` class. Its `queue` and `readable` fields are
  updated in place by `Push` and `WaitAsync`. Each method is proved against the step function
  of `PortSpec`. Ghost fields `pushed` and `delivered` record the history. The class invariant
  says delivered-then-queued equals pushed. The file also holds the source's own
  `wait_async` test as a client method.

Two behaviours of the code worth noting:
- `push` calls `signal_set(READABLE)` on every call (port.rs:55), whether or not the queue was
  empty before. Setting a bit that is already set changes nothing.
- `wait_async` does not check for an empty queue after it wakes (port.rs:63-65): it clears
  `READABLE` and takes whatever the queue holds. In a sequential run an empty batch cannot
  arise: under the invariant, a port with `READABLE` set has a non-empty queue
  (`Take`, `WaitDrainsPending`, `Port.WaitAsync`). In the concurrent program it can.
  `push` releases the lock (port.rs:54) before it sets `READABLE` (port.rs:55). A consumer can
  drain the queue in that gap, together with the packet just appended. The late `signal_set`
  then raises `READABLE` over an empty queue, and the next `wait_async` returns an empty batch.
  This interleaving was found by reading the code and is outside the sequential model.

`ZxError` and `Signal` are defined outside `port.rs`. They are modelled only as far as `port.rs`
uses them. `ZxError` is an `i32` code with `OK = 0`. `Signal` is a 32-bit flag set with
`READABLE = 1 << 0` and `WRITABLE = 1 << 1`, which are Zircon's values.

## Model

| member | source | states |
|---|---|---|
| PortSpec.Init | zircon-object/src/signal/port.rs:43-48 | a new port has an empty queue and READABLE clear, so the invariant holds from the start |
| PortSpec.Enqueue | zircon-object/src/signal/port.rs:51-56 | push puts the packet at the tail; earlier packets keep their positions and contents; READABLE is set afterwards |
| PortSpec.Take | zircon-object/src/signal/port.rs:63-65 | drain returns exactly the old queue and leaves an empty queue with READABLE clear; under the invariant, a drain allowed by READABLE returns a non-empty batch |
| PortSpec.ExecuteConsistent | zircon-object/src/signal/port.rs:43-65 | in any sequential run of new, push and drain, READABLE holds exactly when the queue is non-empty, and no drain returns an empty batch |
| PortSpec.ExactlyOnce | zircon-object/src/signal/port.rs:51-65 | across successive drains, the returned batches followed by what is still queued equal the pushed packets, each exactly once and in push order |
| PortSpec.QueueIsPushedSinceWait | zircon-object/src/signal/port.rs:51-72 | the queue, and so `len`, is exactly the packets pushed since the last drain, in push order |
| PortSpec.WaitDrainsPending | zircon-object/src/signal/port.rs:59-65 | a wait resumes if and only if packets were pushed since the last drain; it returns exactly those packets and leaves the port as freshly created |
| PortSpec.TwoRounds | zircon-object/src/signal/port.rs:101-119 | push(key 1), drain, push(key 2), drain: the first drain returns only the first packet, the second only the second |
| PortSpec.OneBatchInPushOrder | zircon-object/src/signal/port.rs:51-65 | three pushes with no drain between them come out as one batch in push order; a second wait with no push in between does not resume |
| PortObject.Port.constructor | zircon-object/src/signal/port.rs:43-48 | `Port::new` establishes the invariant with an empty queue, READABLE clear and an empty history |
| PortObject.Port.Push | zircon-object/src/signal/port.rs:51-56 | the queue becomes the old queue followed by the packet and READABLE is set; the invariant and the delivery history are kept |
| PortObject.Port.WaitAsync | zircon-object/src/signal/port.rs:59-66 | with READABLE set, returns the whole old queue (never empty), leaves the queue empty and READABLE clear, and adds the batch to what has been delivered |
| PortObject.Port.Len | zircon-object/src/signal/port.rs:70-72 | returns the number of queued packets |
| PortObject.WaitAsyncRounds | zircon-object/src/signal/port.rs:80-120 | the source test's run on a `Port` object: the first drain returns only the key-1 packet, the second only the key-2 packet, and the port ends empty |

## Left out

- The waiting in `wait_signal_async(READABLE).await` (port.rs:60-62) is a scheduler and waker rendezvous. It appears only as the precondition `readable` of `Port.WaitAsync`. In `Execute` a wait with READABLE clear never resumes. Cancelling the wait before it resumes changes no state, and the model has nothing to say about that case.
- `spin::Mutex`, `Arc` sharing and the gap between releasing the lock (port.rs:54) and `signal_set` (port.rs:55) are concurrency concerns. The model is sequential, and each method is one atomic step.
- `KObjectBase`, `impl_kobject!` and the signal vocabulary beyond READABLE and WRITABLE are defined outside `port.rs`. The port's signal state is modelled as the single READABLE bit.
- The signal-to-port bridge (`send_signal_to_port_async`) and `DummyObject` live in the object module, which is not part of this model. In the test scenario, the bridge is replaced by the push it performs with key 1 and payload `Signal(READABLE)`.
- The test's task spawning and sleeping (port.rs:86-99) only fix the order of events. The model keeps that order and its outcome.
- `#[non_exhaustive]` on the payload enum is a compatibility marker. The model has exactly the two variants that exist.
- PortObject.Port.Push and PortObject.Port.WaitAsync require the class invariant `Valid()`. The source has no precondition, but the invariant is established by the constructor and kept by every method.
