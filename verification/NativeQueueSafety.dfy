/** What every reachable state of an addon's queue satisfies. */
module NativeQueueSafety {
  import opened Arithmetic
  import opened Words
  import opened NativeQueue

  ghost predicate QueueOk(q: Queue) {
    && |q.slots| == SLOTS
    && q.tail == Wrap(|q.enqueued|)
    && q.head == Wrap(q.claimed)
    && q.claimed <= |q.enqueued| <= q.claimed + SLOTS
  }

  /** A message enqueued and not claimed is still in its slot. */
  ghost predicate Unread(q: Queue)
    requires QueueOk(q)
  {
    forall k :: q.claimed <= k < |q.enqueued| ==> q.slots[Slot(k)] == q.enqueued[k]
  }

  predicate Holds(w: Writer) {
    !w.Idle? && !w.TryLock? && !w.WaitLock? && !w.AsleepLock? && !w.NotifyLock?
  }

  /** The lock is a lock: exactly the holder is inside. */
  ghost predicate LockOk(q: Queue) {
    && (q.locked ==> q.holder < |q.writers|)
    && forall i :: 0 <= i < |q.writers| ==> (Holds(q.writers[i]) <==> q.locked && i == q.holder)
  }

  /** A head loaded under the lock is less than a queue's length behind, so no wrap of it can mislead. */
  ghost predicate HeadOk(q: Queue, head: nat, claimed: nat) {
    head == Wrap(claimed) && claimed <= q.claimed && |q.enqueued| <= claimed + SLOTS
  }

  ghost predicate HasRoom(q: Queue, tail: nat) {
    tail == q.tail && |q.enqueued| < q.claimed + SLOTS
  }

  ghost predicate WriterOk(q: Queue, w: Writer)
    requires |q.slots| == SLOTS
  {
    match w
    case LoadTail(_, head, claimed) => HeadOk(q, head, claimed)
    case StopFull(_, head, claimed, tail) => tail == q.tail && HeadOk(q, head, claimed) && |q.enqueued| == claimed + SLOTS
    case WaitHead(_, head, claimed, tail) => tail == q.tail && HeadOk(q, head, claimed) && |q.enqueued| == claimed + SLOTS
    case AsleepHead(_, claimed, tail) =>
      && tail == q.tail && claimed <= q.claimed && |q.enqueued| == claimed + SLOTS
      && (claimed == q.claimed || q.receiver.NotifyHead?)
    case ReloadHead(_, tail) => tail == q.tail
    case StopCheck(_, tail) => HasRoom(q, tail)
    case StoreCallback(_, tail) => HasRoom(q, tail)
    case StoreData(m, tail) => HasRoom(q, tail) && q.slots[Slot(tail)].callback == m.callback
    case StoreTail(m, tail) => HasRoom(q, tail) && q.slots[Slot(tail)] == m
    case _ => true
  }

  ghost predicate WritersOk(q: Queue)
    requires |q.slots| == SLOTS
  {
    forall i :: 0 <= i < |q.writers| ==> WriterOk(q, q.writers[i])
  }

  /** The message being read is the next one; what has been received is what was claimed, but for one in hand. */
  ghost predicate ReceiverOk(q: Queue)
    requires QueueOk(q)
  {
    && (match q.receiver
        case LoopTail(head) => head == q.head
        case LoopStop(head) => head == q.head && q.claimed < |q.enqueued|
        case ReadCallback(head) => head == q.head && q.claimed < |q.enqueued|
        case ReadData(head, callback) =>
          head == q.head && q.claimed < |q.enqueued| && callback == q.enqueued[q.claimed].callback
        case StoreHead(head, m) => head == q.head && q.claimed < |q.enqueued| && m == q.enqueued[q.claimed]
        case NotifyHead(m) => q.claimed > 0 && m == q.enqueued[q.claimed - 1]
        case Receive(m) => q.claimed > 0 && m == q.enqueued[q.claimed - 1]
        case WaitTail(head) => head == q.head
        case AsleepTail => q.claimed == |q.enqueued| || NotifyDue(q)
        case _ => true)
    && q.received == q.enqueued[..q.claimed - InHand(q)]
  }

  /** A message has been put in the queue whose notify has not been made. */
  ghost predicate NotifyDue(q: Queue) {
    q.locked && q.holder < |q.writers| && q.writers[q.holder].NotifyTail?
  }

  ghost function InHand(q: Queue): nat
    requires (q.receiver.NotifyHead? || q.receiver.Receive?) ==> q.claimed > 0
    ensures InHand(q) <= q.claimed
  {
    if q.receiver.NotifyHead? || q.receiver.Receive? then 1 else 0
  }

  /** Nobody sleeps on a free lock without someone awake on the way to it. */
  ghost predicate SleepersOk(q: Queue) {
    (exists i :: 0 <= i < |q.writers| && q.writers[i].AsleepLock?)
    ==> (q.locked || exists j :: 0 <= j < |q.writers| && Comes(q.writers[j]))
  }

  /** Awake and about to try the lock, or to notify a sleeper of it. */
  predicate Comes(w: Writer) {
    w.NotifyLock? || w.TryLock? || w.WaitLock?
  }

  ghost predicate Inv(q: Queue) {
    QueueOk(q) && Unread(q) && LockOk(q) && WritersOk(q) && ReceiverOk(q) && SleepersOk(q)
  }

  lemma CreateOk(writers: nat)
    ensures Inv(Create(writers))
  {
  }

  // ------------------------------------------------------------------ a writer's steps keep it

  /** A step that only moves one writer on, inside the lock or outside it as before. */
  lemma WriterMoves(q: Queue, i: nat, w: Writer)
    requires Inv(q) && i < |q.writers| && !q.writers[i].NotifyTail? && Holds(w) == Holds(q.writers[i])
    requires WriterOk(q, w) && SleepersOk(At(q, i, w))
    ensures Inv(At(q, i, w))
  {
    hide Slot, Wrap, SleepersOk, Unread;
    var t := At(q, i, w);
    assert Unread(t) by { SameUnread(q, t); }
  }

  lemma SameUnread(q: Queue, t: Queue)
    requires QueueOk(q) && QueueOk(t) && Unread(q)
    requires t.slots == q.slots && t.enqueued == q.enqueued && q.claimed <= t.claimed
    ensures Unread(t)
  {
    hide Slot, Wrap;
  }

  /** Nobody begins to sleep on the lock, and whoever stops coming for it has it. */
  lemma SleepersKept(q: Queue, i: nat, w: Writer)
    requires SleepersOk(q) && i < |q.writers|
    requires w.AsleepLock? ==> q.locked
    requires Comes(q.writers[i]) ==> Comes(w) || q.locked
    ensures SleepersOk(At(q, i, w))
  {
    var t := At(q, i, w);
    if k :| 0 <= k < |t.writers| && t.writers[k].AsleepLock? && !t.locked {
      assert q.writers[k].AsleepLock?;
      var j :| 0 <= j < |q.writers| && Comes(q.writers[j]);
      assert Comes(t.writers[j]);
    }
  }

  lemma LockStepOk(q: Queue, i: nat, wake: nat)
    requires Inv(q) && i < |q.writers| && WakesOne(q, i, wake)
    requires q.writers[i].TryLock? || q.writers[i].WaitLock? || q.writers[i].LoadHead?
    ensures Inv(WriterStep(q, i, wake))
  {
    hide Slot, Wrap, SleepersOk, Unread;
    var t := WriterStep(q, i, wake);
    if q.writers[i].TryLock? && !q.locked {
      assert forall k :: 0 <= k < |t.writers| && k != i ==> t.writers[k] == q.writers[k];
      assert Unread(t) by { SameUnread(q, t); }
      LockedSleepers(t);
    } else {
      SleepersKept(q, i, t.writers[i]);
      WriterMoves(q, i, t.writers[i]);
    }
  }

  lemma LockedSleepers(q: Queue)
    requires q.locked
    ensures SleepersOk(q)
  {
  }

  /** The signed difference says exactly whether the queue was full when the head was loaded. */
  lemma FullMeans(q: Queue, head: nat, claimed: nat)
    requires QueueOk(q) && HeadOk(q, head, claimed)
    ensures Full(head, q.tail) <==> |q.enqueued| == claimed + SLOTS
  {
    DifferenceOfWraps(|q.enqueued|, claimed);
  }

  lemma FillStepOk(q: Queue, i: nat, wake: nat)
    requires Inv(q) && i < |q.writers| && (q.writers[i].LoadTail? || q.writers[i].ReloadHead?)
    ensures Inv(WriterStep(q, i, wake))
  {
    hide Slot, Wrap, SleepersOk, Unread, Full, ReceiverOk;
    var w := WriterStep(q, i, wake).writers[i];
    if q.writers[i].LoadTail? {
      FullMeans(q, q.writers[i].head, q.writers[i].claimed);
    } else {
      FullMeans(q, q.head, q.claimed);
    }
    SleepersKept(q, i, w);
    WriterMoves(q, i, w);
  }

  lemma WaitHeadOk(q: Queue, i: nat, wake: nat)
    requires Inv(q) && i < |q.writers| && q.writers[i].WaitHead?
    ensures Inv(WriterStep(q, i, wake))
  {
    hide Slot, Wrap, SleepersOk, Unread, ReceiverOk;
    var w := WriterStep(q, i, wake).writers[i];
    WrapInjective(q.claimed, q.writers[i].claimed);
    SleepersKept(q, i, w);
    WriterMoves(q, i, w);
  }

  lemma StopChecksOk(q: Queue, i: nat, wake: nat)
    requires Inv(q) && i < |q.writers| && (q.writers[i].StopFull? || q.writers[i].StopCheck?)
    ensures Inv(WriterStep(q, i, wake))
  {
    hide Slot, Wrap, SleepersOk, Unread, ReceiverOk;
    var w := WriterStep(q, i, wake).writers[i];
    SleepersKept(q, i, w);
    WriterMoves(q, i, w);
  }

  /** The slot at the tail holds no unread message. */
  lemma TailSlotFree(q: Queue)
    requires QueueOk(q) && |q.enqueued| < q.claimed + SLOTS
    ensures Slot(q.tail) == Slot(|q.enqueued|)
    ensures forall k :: q.claimed <= k < |q.enqueued| ==> Slot(k) != Slot(q.tail)
  {
    assert PowerOfTwo(SLOTS) by { assert PowerOfTwo(16) && PowerOfTwo(128); }
    SlotOfWord(|q.enqueued|, 0, SLOTS);
    forall k | q.claimed <= k < |q.enqueued|
      ensures Slot(k) != Slot(q.tail)
    {
      RemaindersDiffer(k, |q.enqueued|, SLOTS);
    }
  }

  lemma StoreSlotOk(q: Queue, i: nat, wake: nat)
    requires Inv(q) && i < |q.writers| && (q.writers[i].StoreCallback? || q.writers[i].StoreData?)
    ensures Inv(WriterStep(q, i, wake))
  {
    hide Slot, Wrap, SleepersOk, ReceiverOk;
    var t := WriterStep(q, i, wake);
    TailSlotFree(q);
    LockedSleepers(t);
    assert forall k :: 0 <= k < |t.writers| && k != i ==> t.writers[k] == q.writers[k];
    SameReceiver(q, t);
  }

  /** The receiver's claim is about the history, and about a notify still due where it sleeps. */
  lemma SameReceiver(q: Queue, t: Queue)
    requires QueueOk(q) && QueueOk(t) && ReceiverOk(q)
    requires t.receiver == q.receiver && t.head == q.head && t.claimed == q.claimed && t.received == q.received
    requires t.enqueued == q.enqueued
    requires q.receiver.AsleepTail? && NotifyDue(q) ==> NotifyDue(t)
    ensures ReceiverOk(t)
  {
    hide Slot, Wrap;
  }

  lemma StoreTailOk(q: Queue, i: nat, wake: nat)
    requires Inv(q) && i < |q.writers| && q.writers[i].StoreTail?
    ensures Inv(WriterStep(q, i, wake))
  {
    hide Slot, Wrap, SleepersOk;
    var t := WriterStep(q, i, wake);
    TailSlotFree(q);
    WrapAdds(|q.enqueued|, 1);
    LockedSleepers(t);
    assert forall k :: 0 <= k < |t.writers| && k != i ==> t.writers[k] == q.writers[k];
    assert t.enqueued[..q.claimed - InHand(q)] == q.enqueued[..q.claimed - InHand(q)];
  }

  lemma NotifyTailOk(q: Queue, i: nat, wake: nat)
    requires Inv(q) && i < |q.writers| && q.writers[i].NotifyTail?
    ensures Inv(WriterStep(q, i, wake))
  {
    hide Slot, Wrap, SleepersOk, Unread;
    var t := WriterStep(q, i, wake);
    LockedSleepers(t);
    assert forall k :: 0 <= k < |t.writers| && k != i ==> t.writers[k] == q.writers[k];
    assert Unread(t) by { SameUnread(q, t); }
  }

  lemma UnlockOk(q: Queue, i: nat, wake: nat)
    requires Inv(q) && i < |q.writers| && q.writers[i].Unlock?
    ensures Inv(WriterStep(q, i, wake))
  {
    hide Slot, Wrap, Unread;
    var t := WriterStep(q, i, wake);
    assert Comes(t.writers[i]);
    assert forall k :: 0 <= k < |t.writers| && k != i ==> t.writers[k] == q.writers[k];
    assert Unread(t) by { SameUnread(q, t); }
  }

  lemma NotifyLockOk(q: Queue, i: nat, wake: nat)
    requires Inv(q) && i < |q.writers| && q.writers[i].NotifyLock? && WakesOne(q, i, wake)
    ensures Inv(WriterStep(q, i, wake))
  {
    hide Slot, Wrap, Unread, SleepersOk, WakesOne;
    var t := WriterStep(q, i, wake);
    NotifyLockWriters(q, i, wake, t);
    assert Unread(t) by { SameUnread(q, t); }
    assert SleepersOk(t) by { OneIsWoken(q, i, wake, t); }
  }

  lemma NotifyLockWriters(q: Queue, i: nat, wake: nat, t: Queue)
    requires |q.slots| == SLOTS && i < |q.writers| && q.writers[i].NotifyLock? && t == WriterStep(q, i, wake)
    ensures t == q.(writers := t.writers) && |t.writers| == |q.writers|
    ensures forall k :: 0 <= k < |t.writers| ==>
      t.writers[k] == (if k == i then Idle
                       else if k == wake && q.writers[k].AsleepLock? then TryLock(q.writers[k].m) else q.writers[k])
  {
  }

  lemma OneIsWoken(q: Queue, i: nat, wake: nat, t: Queue)
    requires i < |q.writers| == |t.writers| && q.writers[i].NotifyLock? && WakesOne(q, i, wake)
    requires forall k :: 0 <= k < |t.writers| ==>
      t.writers[k] == (if k == i then Idle
                       else if k == wake && q.writers[k].AsleepLock? then TryLock(q.writers[k].m) else q.writers[k])
    ensures SleepersOk(t)
  {
    if k :| 0 <= k < |t.writers| && t.writers[k].AsleepLock? {
      assert q.writers[k].AsleepLock?;
      assert wake != i && Comes(t.writers[wake]);
    }
  }

  lemma WriterStepOk(q: Queue, i: nat, wake: nat)
    requires Inv(q) && i < |q.writers| && WakesOne(q, i, wake)
    ensures Inv(WriterStep(q, i, wake))
  {
    hide Inv, WakesOne;
    match q.writers[i]
    case Idle =>
    case AsleepLock(_) =>
    case AsleepHead(_, _, _) =>
    case LoadTail(_, _, _) => FillStepOk(q, i, wake);
    case ReloadHead(_, _) => FillStepOk(q, i, wake);
    case WaitHead(_, _, _, _) => WaitHeadOk(q, i, wake);
    case StopFull(_, _, _, _) => StopChecksOk(q, i, wake);
    case StopCheck(_, _) => StopChecksOk(q, i, wake);
    case StoreCallback(_, _) => StoreSlotOk(q, i, wake);
    case StoreData(_, _) => StoreSlotOk(q, i, wake);
    case StoreTail(_, _) => StoreTailOk(q, i, wake);
    case NotifyTail => NotifyTailOk(q, i, wake);
    case Unlock => UnlockOk(q, i, wake);
    case NotifyLock => NotifyLockOk(q, i, wake);
    case _ => LockStepOk(q, i, wake);
  }

  // ------------------------------------------------------------------ the receiver's and the stopper's keep it

  lemma ReceiverMoves(q: Queue, t: Queue)
    requires Inv(q) && !q.receiver.NotifyHead? && t == q.(receiver := t.receiver)
    requires ReceiverOk(t)
    ensures Inv(t)
  {
    hide Slot, Wrap, ReceiverOk, Unread;
    assert Unread(t) by { SameUnread(q, t); }
  }

  lemma HeadSlot(q: Queue)
    requires QueueOk(q)
    ensures Slot(q.head) == Slot(q.claimed)
  {
    assert PowerOfTwo(SLOTS) by { assert PowerOfTwo(16) && PowerOfTwo(128); }
    SlotOfWord(q.claimed, 0, SLOTS);
  }

  lemma StoreHeadOk(q: Queue)
    requires Inv(q) && q.receiver.StoreHead?
    ensures Inv(ReceiverStep(q, false))
  {
    hide Slot, Wrap, SleepersOk, Unread;
    var t := ReceiverStep(q, false);
    WrapAdds(q.claimed, 1);
    assert Unread(t) by { SameUnread(q, t); }
    assert SleepersOk(t) by { SameSleepers(q, t); }
  }

  lemma SameSleepers(q: Queue, t: Queue)
    requires SleepersOk(q) && t.locked == q.locked && |t.writers| == |q.writers|
    requires forall i :: 0 <= i < |q.writers| ==>
               t.writers[i].AsleepLock? == q.writers[i].AsleepLock? && Comes(t.writers[i]) == Comes(q.writers[i])
    ensures SleepersOk(t)
  {
    if q.locked || !exists i :: 0 <= i < |t.writers| && t.writers[i].AsleepLock? {
    } else {
      var i :| 0 <= i < |t.writers| && t.writers[i].AsleepLock?;
      assert q.writers[i].AsleepLock?;
      var j :| 0 <= j < |q.writers| && Comes(q.writers[j]);
      assert Comes(t.writers[j]);
    }
  }

  /** A notify on HEAD wakes the holder where it sleeps on it, and nobody else. */
  lemma WakeOnHeadOk(q: Queue, t: Queue)
    requires Inv(q) && t == WakeOnHead(q).(receiver := t.receiver, stopper := t.stopper) && ReceiverOk(t)
    ensures Inv(t)
  {
    hide Slot, Wrap, Unread, SleepersOk, ReceiverOk;
    assert forall i :: 0 <= i < |q.writers| ==>
      t.writers[i] == (if q.writers[i].AsleepHead? then ReloadHead(q.writers[i].m, q.writers[i].tail) else q.writers[i]);
    assert Unread(t) by { SameUnread(q, t); }
    assert SleepersOk(t) by { SameSleepers(q, t); }
  }

  lemma ReadOk(q: Queue)
    requires Inv(q) && (q.receiver.ReadCallback? || q.receiver.ReadData?)
    ensures Inv(ReceiverStep(q, false))
  {
    hide Slot, Wrap, SleepersOk, WritersOk;
    HeadSlot(q);
    ReceiverMoves(q, ReceiverStep(q, false));
  }

  lemma LookTailOk(q: Queue)
    requires Inv(q) && (q.receiver.LoopTail? || q.receiver.WaitTail?)
    ensures Inv(ReceiverStep(q, false))
  {
    hide Slot, Wrap, SleepersOk, WritersOk, Unread;
    WrapInjective(|q.enqueued|, q.claimed);
    ReceiverMoves(q, ReceiverStep(q, false));
  }

  lemma NotifyHeadOk(q: Queue)
    requires Inv(q) && q.receiver.NotifyHead?
    ensures Inv(ReceiverStep(q, false))
  {
    hide Slot, Wrap, SleepersOk, WritersOk, Unread;
    WakeOnHeadOk(q, ReceiverStep(q, false));
  }

  lemma ReceiverStepOk(q: Queue, throws: bool)
    requires Inv(q)
    ensures Inv(ReceiverStep(q, throws))
  {
    hide Slot, Wrap, SleepersOk, WritersOk, Unread, LockOk;
    match q.receiver
    case StoreHead(_, _) => StoreHeadOk(q);
    case NotifyHead(_) => NotifyHeadOk(q);
    case LoopTail(_) => LookTailOk(q);
    case WaitTail(_) => LookTailOk(q);
    case ReadCallback(_) => ReadOk(q);
    case ReadData(_, _) => ReadOk(q);
    case Receive(_) => ReceiveOk(q, throws);
    case _ => ReceiverMoves(q, ReceiverStep(q, throws));
  }

  lemma ReceiveOk(q: Queue, throws: bool)
    requires Inv(q) && q.receiver.Receive?
    ensures Inv(ReceiverStep(q, throws))
  {
    hide Slot, Wrap, SleepersOk, Unread;
    var t := ReceiverStep(q, throws);
    assert q.enqueued[..q.claimed] == q.enqueued[..q.claimed - 1] + [q.enqueued[q.claimed - 1]];
    assert Unread(t) by { SameUnread(q, t); }
    assert SleepersOk(t) by { SameSleepers(q, t); }
  }

  lemma StopperStepOk(q: Queue)
    requires Inv(q)
    ensures Inv(StopperStep(q))
  {
    hide Slot, Wrap, SleepersOk, Unread;
    var t := StopperStep(q);
    if q.stopper.StopNotifyHead? {
      SameReceiver(q, t);
      WakeOnHeadOk(q, t);
    } else {
      assert Unread(t) by { SameUnread(q, t); }
      assert SleepersOk(t) by { SameSleepers(q, t); }
    }
  }

  lemma DoOk(q: Queue, e: Event)
    requires Inv(q) && Enabled(q, e)
    ensures Inv(Do(q, e))
  {
    match e
    case Send(i, m) =>
      hide Slot, Wrap, SleepersOk, Unread;
      SleepersKept(q, i, TryLock(m));
      WriterMoves(q, i, TryLock(m));
    case WriterRuns(i, wake) => WriterStepOk(q, i, wake);
    case ReceiverRuns(throws) => ReceiverStepOk(q, throws);
    case StopperRuns => StopperStepOk(q);
  }
}
