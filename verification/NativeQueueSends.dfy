/** What becomes of every message sent to an addon's queue, and how few steps of its thread a send takes. */
module NativeQueueSends {
  import opened Words
  import opened NativeQueue
  import opened NativeQueueSafety
  import opened NativeQueueRuns

  // ------------------------------------------------------------------ none lost, none twice

  /** Whether a thread has a message still to put in the queue. */
  predicate HasOne(w: Writer) {
    !w.Idle? && !w.NotifyTail? && !w.Unlock? && !w.NotifyLock?
  }

  function InHandOf(w: Writer): multiset<Message> {
    if HasOne(w) then multiset{w.m} else multiset{}
  }

  function Holding(writers: seq<Writer>): multiset<Message> {
    if writers == [] then multiset{} else InHandOf(writers[0]) + Holding(writers[1..])
  }

  lemma {:induction false} HoldingAt(writers: seq<Writer>, i: nat, w: Writer)
    requires i < |writers|
    ensures Holding(writers[i := w]) + InHandOf(writers[i]) == Holding(writers) + InHandOf(w)
    decreases |writers|
  {
    hide InHandOf;
    var next := writers[i := w];
    if i == 0 {
      assert next[1..] == writers[1..];
      assert Holding(next) == InHandOf(w) + Holding(writers[1..]);
      assert Holding(writers) == InHandOf(writers[0]) + Holding(writers[1..]);
    } else {
      HoldingAt(writers[1..], i - 1, w);
      assert next[1..] == writers[1..][i - 1 := w] && writers[1..][i - 1] == writers[i];
      assert Holding(writers) == InHandOf(writers[0]) + Holding(writers[1..]);
      assert Holding(next) == InHandOf(writers[0]) + Holding(writers[1..][i - 1 := w]);
      assert Holding(next) + InHandOf(writers[i])
          == InHandOf(writers[0]) + (Holding(writers[1..][i - 1 := w]) + InHandOf(writers[i]));
    }
  }

  /** Who wakes has the message it slept with. */
  predicate SameInHand(a: Writer, b: Writer) {
    HasOne(a) == HasOne(b) && (HasOne(a) ==> a.m == b.m)
  }

  lemma {:induction false} HoldingSame(a: seq<Writer>, b: seq<Writer>)
    requires |a| == |b| && forall i :: 0 <= i < |a| ==> SameInHand(a[i], b[i])
    ensures Holding(a) == Holding(b)
    decreases |a|
  {
    if a != [] {
      assert SameInHand(a[0], b[0]);
      forall i | 0 <= i < |a[1..]| ensures SameInHand(a[1..][i], b[1..][i]) { assert SameInHand(a[i + 1], b[i + 1]); }
      HoldingSame(a[1..], b[1..]);
    }
  }

  /** The message a step drops: a stop was seen where the send looks at STOP. */
  predicate Drops(q: Queue, e: Event) {
    e.WriterRuns? && e.i < |q.writers| && q.stopped && (q.writers[e.i].StopFull? || q.writers[e.i].StopCheck?)
  }

  function Dropped(q: Queue, e: Event): multiset<Message> {
    if Drops(q, e) then multiset{q.writers[e.i].m} else multiset{}
  }

  function AllDropped(run: seq<Queue>, events: seq<Event>, i: nat): multiset<Message>
    requires i <= |events| && i <= |run|
  {
    if i == 0 then multiset{} else AllDropped(run, events, i - 1) + Dropped(run[i - 1], events[i - 1])
  }

  function SentBy(e: Event): multiset<Message> {
    if e.Send? then multiset{e.m} else multiset{}
  }

  function Sent(events: seq<Event>): multiset<Message> {
    if events == [] then multiset{} else Sent(events[..|events| - 1]) + SentBy(events[|events| - 1])
  }

  /** Moving one writer on changes its place alone. */
  lemma AtIs(q: Queue, i: nat)
    requires i < |q.writers|
    ensures forall w {:trigger At(q, i, w)} :: At(q, i, w) == q.(writers := At(q, i, w).writers)
    ensures forall w {:trigger At(q, i, w)} :: At(q, i, w).writers == q.writers[i := w]
  {
  }

  lemma WakesAre(q: Queue, wake: nat)
    ensures WakeReceiver(q) == q.(receiver := WakeReceiver(q).receiver)
    ensures var t := WakeOne(q, wake);
      && |t.writers| == |q.writers| && t == q.(writers := t.writers)
      && forall k :: 0 <= k < |q.writers| ==>
           t.writers[k] == q.writers[k] || (q.writers[k].AsleepLock? && t.writers[k] == TryLock(q.writers[k].m))
  {
  }

  /** What a thread's own step does with its message. */
  lemma OwnStepHolds(q: Queue, i: nat, wake: nat)
    requires |q.slots| == SLOTS && i < |q.writers| && !q.writers[i].NotifyLock?
    ensures var (w, t) := (q.writers[i], WriterStep(q, i, wake));
      && |t.writers| == |q.writers| && t.writers == q.writers[i := t.writers[i]]
      && t.enqueued == q.enqueued + (if w.StoreTail? then [w.m] else [])
      && if w.StoreTail? || Drops(q, WriterRuns(i, wake)) then HasOne(w) && !HasOne(t.writers[i])
         else SameInHand(w, t.writers[i])
  {
    AtIs(q, i);
    WakesAre(q, wake);
    AtIs(WakeReceiver(q), i);
    hide Slot, Wrap, Full, At, WakeReceiver, WakeOne;
  }

  lemma NotifyHolds(q: Queue, i: nat, wake: nat)
    requires |q.slots| == SLOTS && i < |q.writers| && q.writers[i].NotifyLock?
    ensures var t := WriterStep(q, i, wake);
      && t.enqueued == q.enqueued && |t.writers| == |q.writers|
      && forall k :: 0 <= k < |q.writers| ==> SameInHand(q.writers[k], t.writers[k])
  {
    WakesAre(q, wake);
    AtIs(WakeOne(q, wake), i);
    hide Slot, Wrap, Full, At, WakeReceiver, WakeOne;
  }

  lemma HandedOn(was: Writer, now: Writer, added: seq<Message>, dropped: multiset<Message>)
    requires (SameInHand(was, now) && added == [] && dropped == multiset{})
          || (HasOne(was) && !HasOne(now)
              && ((added == [was.m] && dropped == multiset{}) || (added == [] && dropped == multiset{was.m})))
    ensures multiset(added) + dropped + InHandOf(now) == InHandOf(was)
  {
  }

  lemma WriterHolds(q: Queue, i: nat, wake: nat)
    requires |q.slots| == SLOTS && i < |q.writers|
    ensures var t := WriterStep(q, i, wake);
      Holding(t.writers) + multiset(t.enqueued) + Dropped(q, WriterRuns(i, wake)) == Holding(q.writers) + multiset(q.enqueued)
  {
    var (w, t) := (q.writers[i], WriterStep(q, i, wake));
    if w.NotifyLock? {
      NotifyHolds(q, i, wake);
      hide WriterStep, HasOne, SameInHand, Holding;
      HoldingSame(q.writers, t.writers);
    } else {
      OwnStepHolds(q, i, wake);
      HoldingAt(q.writers, i, t.writers[i]);
      hide WriterStep, Holding;
      var added := if w.StoreTail? then [w.m] else [];
      HandedOn(w, t.writers[i], added, Dropped(q, WriterRuns(i, wake)));
      hide *;
      assert multiset(t.enqueued) == multiset(q.enqueued) + multiset(added);
      Moves(Holding(t.writers), Holding(q.writers), InHandOf(w), InHandOf(t.writers[i]), multiset(q.enqueued), multiset(added),
            Dropped(q, WriterRuns(i, wake)));
    }
  }

  lemma Moves<T>(now: multiset<T>, was: multiset<T>, a: multiset<T>, b: multiset<T>, queued: multiset<T>,
                 added: multiset<T>,
                 dropped: multiset<T>)
    requires now + a == was + b && added + dropped + b == a
    ensures now + (queued + added) + dropped == was + queued
  {
    forall x ensures (now + (queued + added) + dropped)[x] == (was + queued)[x] {
      assert (now + a)[x] == (was + b)[x] && (added + dropped + b)[x] == a[x];
    }
  }

  lemma OthersHold(q: Queue, e: Event)
    requires |q.slots| == SLOTS && Enabled(q, e) && (e.ReceiverRuns? || e.StopperRuns?)
    ensures Holding(Do(q, e).writers) == Holding(q.writers) && Do(q, e).enqueued == q.enqueued
  {
    hide Slot, Wrap, Holding;
    HoldingSame(q.writers, Do(q, e).writers);
  }

  lemma SendStep(q: Queue, e: Event)
    requires |q.slots| == SLOTS && Enabled(q, e)
    ensures Holding(Do(q, e).writers) + multiset(Do(q, e).enqueued) + Dropped(q, e)
         == Holding(q.writers) + multiset(q.enqueued) + SentBy(e)
    ensures Dropped(q, e) != multiset{} ==> q.stopped
  {
    hide Holding, WriterStep;
    match e
    case Send(i, m) =>
      HoldingAt(q.writers, i, TryLock(m));
      assert Do(q, e) == At(q, i, TryLock(m)) && InHandOf(q.writers[i]) == multiset{} && InHandOf(TryLock(m)) == multiset{m};
      assert Holding(q.writers[i := TryLock(m)]) == Holding(q.writers) + multiset{m};
    case WriterRuns(i, wake) => WriterHolds(q, i, wake);
    case ReceiverRuns(_) => OthersHold(q, e);
    case StopperRuns => OthersHold(q, e);
  }

  /**
   * Every message sent is in the queue's history once, in the hands of the thread sending it, or was dropped: none is
   * lost and none is put in twice. Only a stop drops any.
   */
  lemma {:induction false} NothingLost(run: seq<Queue>, events: seq<Event>, i: nat)
    requires IsRun(run, events) && i < |run|
    ensures Holding(run[i].writers) + multiset(run[i].enqueued) + AllDropped(run, events, i) == Sent(events[..i])
    ensures !run[i].stopped ==> AllDropped(run, events, i) == multiset{}
  {
    hide Do, Enabled, Holding, Dropped, SentBy;
    if i == 0 {
      var writers: nat :| run[0] == Create(writers);
      NoneHeld(writers);
    } else {
      NothingLost(run, events, i - 1);
      SendStep(run[i - 1], events[i - 1]);
      StepGrows(run[i - 1], events[i - 1]);
      LastSent(events, i);
      assert AllDropped(run, events, i) == AllDropped(run, events, i - 1) + Dropped(run[i - 1], events[i - 1]);
      assert run[i] == Do(run[i - 1], events[i - 1]);
      hide IsRun, AllDropped, Sent;
      Balance(Holding(run[i].writers), multiset(run[i].enqueued), Dropped(run[i - 1], events[i - 1]),
              Holding(run[i - 1].writers), multiset(run[i - 1].enqueued), SentBy(events[i - 1]),
              AllDropped(run, events, i - 1), Sent(events[..i - 1]));
    }
  }

  lemma LastSent(events: seq<Event>, i: nat)
    requires 0 < i <= |events|
    ensures Sent(events[..i]) == Sent(events[..i - 1]) + SentBy(events[i - 1])
  {
    assert events[..i][..i - 1] == events[..i - 1];
  }

  lemma Balance<T>(h: multiset<T>, q: multiset<T>, d: multiset<T>, h0: multiset<T>, q0: multiset<T>, s: multiset<T>,
                   all: multiset<T>, sent: multiset<T>)
    requires h + q + d == h0 + q0 + s && h0 + q0 + all == sent
    ensures h + q + (all + d) == sent + s
  {
    assert h + q + (all + d) == h + q + d + all == h0 + q0 + s + all == sent + s;
  }

  lemma {:induction false} NoneHeld(writers: nat)
    ensures Holding(Create(writers).writers) == multiset{} && Create(writers).enqueued == []
    decreases writers
  {
    if writers > 0 {
      NoneHeld(writers - 1);
      assert Create(writers).writers[1..] == Create(writers - 1).writers;
    }
  }

  // ------------------------------------------------------------------ how few steps

  /** At most so many of its thread's own steps until a send is over, sleeps or looks again. */
  function Left(w: Writer): nat {
    match w
    case TryLock(_) => 14
    case WaitLock(_) => 13
    case LoadHead(_) => 12
    case LoadTail(_, _, _) => 11
    case StopFull(_, _, _, _) => 10
    case WaitHead(_, _, _, _) => 9
    case ReloadHead(_, _) => 8
    case StopCheck(_, _) => 7
    case StoreCallback(_, _) => 6
    case StoreData(_, _) => 5
    case StoreTail(_, _) => 4
    case NotifyTail => 3
    case Unlock => 2
    case NotifyLock => 1
    case _ => 0
  }

  predicate Sleeps(w: Writer) {
    w.AsleepLock? || w.AsleepHead?
  }

  /** It tries the lock again, or finds the queue still full. */
  predicate GoesRound(was: Writer, now: Writer) {
    (was.WaitLock? && now.TryLock?) || (was.ReloadHead? && now.StopFull?)
  }

  lemma NotifyGoesOn(q: Queue, i: nat, wake: nat)
    requires |q.slots| == SLOTS && i < |q.writers| && (q.writers[i].NotifyTail? || q.writers[i].NotifyLock?)
    ensures |WriterStep(q, i, wake).writers| == |q.writers|
    ensures WriterStep(q, i, wake).writers[i] == if q.writers[i].NotifyTail? then Unlock else Idle
  {
    WakesAre(q, wake);
    AtIs(WakeReceiver(q), i);
    AtIs(WakeOne(q, wake), i);
    hide Slot, Wrap, Full, At, WakeReceiver, WakeOne;
  }

  lemma LockGoesOn(q: Queue, i: nat, wake: nat)
    requires |q.slots| == SLOTS && i < |q.writers| && (q.writers[i].TryLock? || q.writers[i].WaitLock?)
    ensures |WriterStep(q, i, wake).writers| == |q.writers|
    ensures var w := WriterStep(q, i, wake).writers[i];
      Left(w) < Left(q.writers[i]) || (q.writers[i].WaitLock? && w.TryLock? && !q.locked)
  {
    AtIs(q, i);
    hide Slot, Wrap, Full, At;
  }

  lemma FullGoesOn(q: Queue, i: nat, wake: nat)
    requires Inv(q) && i < |q.writers| && q.writers[i].ReloadHead?
    ensures |WriterStep(q, i, wake).writers| == |q.writers|
    ensures var w := WriterStep(q, i, wake).writers[i];
      w.StopCheck? || (w.StopFull? && |q.enqueued| == q.claimed + SLOTS)
  {
    assert WriterOk(q, q.writers[i]);
    FullMeans(q, q.head, q.claimed);
    AtIs(q, i);
    hide Inv, Slot, Wrap, Full, At;
  }

  lemma HolderGoesOn(q: Queue, i: nat, wake: nat)
    requires |q.slots| == SLOTS && i < |q.writers| && Holds(q.writers[i])
    requires !q.writers[i].NotifyTail? && !q.writers[i].ReloadHead? && !Sleeps(q.writers[i])
    ensures |WriterStep(q, i, wake).writers| == |q.writers|
    ensures Left(WriterStep(q, i, wake).writers[i]) < Left(q.writers[i])
  {
    AtIs(q, i);
    hide Slot, Wrap, Full, At;
  }

  /**
   * A step of its thread brings a send nearer its end. It tries the lock again only where the lock is free, and looks at
   * a full queue again only where it is full.
   */
  lemma SendGoesOn(q: Queue, i: nat, wake: nat)
    requires Inv(q) && i < |q.writers| && !q.writers[i].Idle? && !Sleeps(q.writers[i])
    ensures |WriterStep(q, i, wake).writers| == |q.writers|
    ensures var w := WriterStep(q, i, wake).writers[i];
      && Left(q.writers[i]) > 0
      && (GoesRound(q.writers[i], w) || Left(w) < Left(q.writers[i]))
      && (q.writers[i].WaitLock? && w.TryLock? ==> !q.locked)
      && (q.writers[i].ReloadHead? && w.StopFull? ==> |q.enqueued| == q.claimed + SLOTS)
  {
    assert |q.slots| == SLOTS;
    hide WriterStep, Inv;
    match q.writers[i]
    case TryLock(_) => LockGoesOn(q, i, wake);
    case WaitLock(_) => LockGoesOn(q, i, wake);
    case ReloadHead(_, _) => FullGoesOn(q, i, wake);
    case NotifyTail => NotifyGoesOn(q, i, wake);
    case NotifyLock => NotifyGoesOn(q, i, wake);
    case _ => HolderGoesOn(q, i, wake);
  }

  lemma OthersStay(q: Queue, i: nat, wake: nat, k: nat)
    requires |q.slots| == SLOTS && i < |q.writers| && k < |q.writers| && k != i
    ensures |WriterStep(q, i, wake).writers| == |q.writers|
    ensures WriterStep(q, i, wake).writers[k] == q.writers[k] || q.writers[k].AsleepLock?
  {
    AtIs(q, i);
    WakesAre(q, wake);
    AtIs(WakeReceiver(q), i);
    AtIs(WakeOne(q, wake), i);
    hide Slot, Wrap, Full, At, WakeReceiver, WakeOne;
  }

  /** The other threads' steps leave it where it is, unless it sleeps. */
  lemma OthersLeaveIt(q: Queue, e: Event, i: nat)
    requires |q.slots| == SLOTS && Enabled(q, e) && i < |q.writers| && !q.writers[i].Idle? && !Sleeps(q.writers[i])
    requires !(e.WriterRuns? && e.i == i)
    ensures i < |Do(q, e).writers| && Do(q, e).writers[i] == q.writers[i]
  {
    hide Slot, Wrap, WriterStep;
    if e.WriterRuns? { OthersStay(q, e.i, e.wake, i); }
  }

  /** One thread's own steps among the events from i to j. */
  function StepsOf(events: seq<Event>, thread: nat, i: nat, j: nat): nat
    requires i <= j <= |events|
    decreases j
  {
    if i == j then 0
    else StepsOf(events, thread, i, j - 1) + if events[j - 1].WriterRuns? && events[j - 1].i == thread then 1 else 0
  }

  /** A send not over by the j-th state, asleep nowhere nor gone round, has made at most fourteen steps. */
  lemma {:induction false} SendIsShort(run: seq<Queue>, events: seq<Event>, thread: nat, i: nat, j: nat)
    requires IsRun(run, events) && i <= j < |run|
    requires forall k :: i <= k <= j ==>
               thread < |run[k].writers| && !run[k].writers[thread].Idle? && !Sleeps(run[k].writers[thread])
    requires forall k :: i <= k < j ==> !GoesRound(run[k].writers[thread], run[k + 1].writers[thread])
    ensures StepsOf(events, thread, i, j) + Left(run[j].writers[thread]) <= Left(run[i].writers[thread]) <= 14
    decreases j - i
  {
    hide Inv, Do, Enabled, Left;
    if i < j {
      var (q, e) := (run[j - 1], events[j - 1]);
      SendIsShort(run, events, thread, i, j - 1);
      EveryStateOk(run, events, j - 1);
      if e.WriterRuns? && e.i == thread {
        SendGoesOn(q, thread, e.wake);
        DoRuns(q, thread, e.wake);
      } else {
        OthersLeaveIt(q, e, thread);
      }
    } else {
      LeftBound(run[i].writers[thread]);
    }
  }

  lemma DoRuns(q: Queue, i: nat, wake: nat)
    requires |q.slots| == SLOTS && Enabled(q, WriterRuns(i, wake))
    ensures i < |q.writers| && Do(q, WriterRuns(i, wake)) == WriterStep(q, i, wake)
  {
  }

  lemma LeftBound(w: Writer)
    ensures Left(w) <= 14
  {
  }
}
