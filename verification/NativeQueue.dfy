/**
 * An addon's queue from its threads to its main thread, as they run it: every atomic operation and every plain store
 * or load of a slot word is one step. Any number of writers contend for the futex lock; one receiver drains.
 * Beside the queue's words the state holds a history: the messages enqueued, how many are claimed, those received.
 */
module NativeQueue {
  import opened Words

  const SLOTS := 1024

  datatype Message = Message(callback: int, data: int)

  datatype Writer =
    | Idle
    | TryLock(m: Message)
    | WaitLock(m: Message)
    | AsleepLock(m: Message)
    | LoadHead(m: Message)
    | LoadTail(m: Message, head: nat, claimed: nat)
    | StopFull(m: Message, head: nat, claimed: nat, tail: nat)
    | WaitHead(m: Message, head: nat, claimed: nat, tail: nat)
    | AsleepHead(m: Message, claimed: nat, tail: nat)
    | ReloadHead(m: Message, tail: nat)
    | StopCheck(m: Message, tail: nat)
    | StoreCallback(m: Message, tail: nat)
    | StoreData(m: Message, tail: nat)
    | StoreTail(m: Message, tail: nat)
    | NotifyTail
    | Unlock
    | NotifyLock

  datatype Receiver =
    | Drain
    | LoopHead
    | LoopTail(head: nat)
    | LoopStop(head: nat)
    | ReadCallback(head: nat)
    | ReadData(head: nat, callback: int)
    | StoreHead(head: nat, m: Message)
    | NotifyHead(m: Message)
    | Receive(m: Message)
    | FinalStop
    | FinalHead
    | WaitTail(head: nat)
    | AsleepTail
    | Done

  datatype Stopper = NotStopping | StopNotifyTail | StopNotifyHead | Stopped

  datatype Queue = Queue(
    head: nat,
    tail: nat,
    locked: bool,
    stopped: bool,
    slots: seq<Message>,
    writers: seq<Writer>,
    receiver: Receiver,
    stopper: Stopper,
    // history
    holder: nat,
    enqueued: seq<Message>,
    claimed: nat,
    received: seq<Message>)

  function Create(writers: nat): Queue {
    Queue(0, 0, false, false, seq(SLOTS, _ => Message(0, 0)), seq(writers, _ => Idle), Drain, NotStopping, 0, [], 0, [])
  }

  /** slotOf: the counter's low bits. */
  function Slot(counter: nat): (slot: nat)
    ensures slot < SLOTS
  {
    counter % SLOTS
  }

  /** Whether `tail - head` as a signed 32-bit number says there is no room. */
  predicate Full(head: nat, tail: nat) {
    Signed(tail - head) >= SLOTS
  }

  // ------------------------------------------------------------------ a writer's steps

  /** `wake` is the writer a notify of the lock wakes, where one sleeps on it: the notify wakes one. */
  function WriterStep(q: Queue, i: nat, wake: nat): Queue
    requires |q.slots| == SLOTS && i < |q.writers|
  {
    match q.writers[i]
    case Idle => q
    case TryLock(m) =>
      if q.locked then At(q, i, WaitLock(m)) else At(q, i, LoadHead(m)).(locked := true, holder := i)
    case WaitLock(m) => At(q, i, if q.locked then AsleepLock(m) else TryLock(m))
    case AsleepLock(_) => q
    case LoadHead(m) => At(q, i, LoadTail(m, q.head, q.claimed))
    case LoadTail(m, head, claimed) =>
      At(q, i, if Full(head, q.tail) then StopFull(m, head, claimed, q.tail) else StopCheck(m, q.tail))
    case StopFull(m, head, claimed, tail) =>
      At(q, i, if q.stopped then Unlock else WaitHead(m, head, claimed, tail))
    case WaitHead(m, head, claimed, tail) =>
      At(q, i, if q.head == head then AsleepHead(m, claimed, tail) else ReloadHead(m, tail))
    case AsleepHead(_, _, _) => q
    case ReloadHead(m, tail) =>
      At(q, i, if Full(q.head, tail) then StopFull(m, q.head, q.claimed, tail) else StopCheck(m, tail))
    case StopCheck(m, tail) => At(q, i, if q.stopped then Unlock else StoreCallback(m, tail))
    case StoreCallback(m, tail) =>
      At(q, i, StoreData(m, tail)).(slots := q.slots[Slot(tail) := Message(m.callback, q.slots[Slot(tail)].data)])
    case StoreData(m, tail) =>
      At(q, i, StoreTail(m, tail)).(slots := q.slots[Slot(tail) := Message(q.slots[Slot(tail)].callback, m.data)])
    case StoreTail(m, tail) => At(q, i, NotifyTail).(tail := Wrap(tail + 1), enqueued := q.enqueued + [m])
    case NotifyTail => At(WakeReceiver(q), i, Unlock)
    case Unlock => At(q, i, NotifyLock).(locked := false)
    case NotifyLock => At(WakeOne(q, wake), i, Idle)
  }

  function At(q: Queue, i: nat, w: Writer): Queue
    requires i < |q.writers|
  {
    q.(writers := q.writers[i := w])
  }

  function WakeReceiver(q: Queue): Queue {
    if q.receiver.AsleepTail? then q.(receiver := Drain) else q
  }

  function WakeOne(q: Queue, wake: nat): (q': Queue)
    ensures |q'.writers| == |q.writers|
  {
    if wake < |q.writers| && q.writers[wake].AsleepLock? then At(q, wake, TryLock(q.writers[wake].m)) else q
  }

  /** notify on HEAD: every writer asleep on it. */
  function WakeOnHead(q: Queue): (q': Queue)
    ensures |q'.writers| == |q.writers|
  {
    q.(writers := seq(|q.writers|, i requires 0 <= i < |q.writers| =>
      if q.writers[i].AsleepHead? then ReloadHead(q.writers[i].m, q.writers[i].tail) else q.writers[i]))
  }

  // ------------------------------------------------------------------ the receiver's steps

  /** `throws`: whether the callback this step makes throws. */
  function ReceiverStep(q: Queue, throws: bool): Queue
    requires |q.slots| == SLOTS
  {
    match q.receiver
    case Drain => q.(receiver := if q.stopped then Done else LoopHead)
    case LoopHead => q.(receiver := LoopTail(q.head))
    case LoopTail(head) => q.(receiver := if head == q.tail then FinalStop else LoopStop(head))
    case LoopStop(head) => q.(receiver := if q.stopped then FinalStop else ReadCallback(head))
    case ReadCallback(head) => q.(receiver := ReadData(head, q.slots[Slot(head)].callback))
    case ReadData(head, callback) => q.(receiver := StoreHead(head, Message(callback, q.slots[Slot(head)].data)))
    case StoreHead(head, m) => q.(head := Wrap(head + 1), claimed := q.claimed + 1, receiver := NotifyHead(m))
    case NotifyHead(m) => WakeOnHead(q).(receiver := Receive(m))
    case Receive(m) => q.(received := q.received + [m], receiver := if throws then FinalStop else LoopHead)
    case FinalStop => q.(receiver := if q.stopped then Done else FinalHead)
    case FinalHead => q.(receiver := WaitTail(q.head))
    case WaitTail(head) => q.(receiver := if q.tail == head then AsleepTail else Drain)
    case AsleepTail => q
    case Done => q
  }

  function StopperStep(q: Queue): Queue {
    match q.stopper
    case NotStopping => q.(stopped := true, stopper := StopNotifyTail)
    case StopNotifyTail => WakeReceiver(q).(stopper := StopNotifyHead)
    case StopNotifyHead => WakeOnHead(q).(stopper := Stopped)
    case Stopped => q
  }

  // ------------------------------------------------------------------ runs

  datatype Event =
    | Send(i: nat, m: Message)
    | WriterRuns(i: nat, wake: nat)
    | ReceiverRuns(throws: bool)
    | StopperRuns

  /** A notify of the lock wakes a writer asleep on it where there is one. */
  ghost predicate WakesOne(q: Queue, i: nat, wake: nat) {
    (i < |q.writers| && q.writers[i].NotifyLock? && exists j :: 0 <= j < |q.writers| && q.writers[j].AsleepLock?)
    ==> (wake < |q.writers| && q.writers[wake].AsleepLock?)
  }

  ghost predicate Enabled(q: Queue, e: Event) {
    match e
    case Send(i, _) => i < |q.writers| && q.writers[i].Idle?
    case WriterRuns(i, wake) => i < |q.writers| && WakesOne(q, i, wake)
    case ReceiverRuns(_) => true
    case StopperRuns => true
  }

  ghost function Do(q: Queue, e: Event): Queue
    requires |q.slots| == SLOTS && Enabled(q, e)
  {
    match e
    case Send(i, m) => At(q, i, TryLock(m))
    case WriterRuns(i, wake) => WriterStep(q, i, wake)
    case ReceiverRuns(throws) => ReceiverStep(q, throws)
    case StopperRuns => StopperStep(q)
  }

  ghost predicate IsRun(run: seq<Queue>, events: seq<Event>) {
    && |run| == |events| + 1
    && (exists writers: nat :: run[0] == Create(writers))
    && forall k :: 0 <= k < |events| ==>
         |run[k].slots| == SLOTS && Enabled(run[k], events[k]) && run[k + 1] == Do(run[k], events[k])
  }
}
