/**
 * The guest's next ticks: a queue that is drained first in, first out, by one microtask or by an outermost callback,
 * whatever the callbacks do: queue more ticks, have the engine enter further callbacks, or throw.
 */
module GuestTicks {
  /** `Enters`: a callback the engine makes while this one is still on the stack. `Resumes`: a native await resumed. */
  datatype Action = QueueTick(tick: Tick) | Enters(callback: Tick) | Resumes

  /** A callback: what it does, in order, and whether it throws then. A throw of one it enters goes through it. */
  datatype Tick = Tick(id: nat, actions: Actions, throws: bool)

  datatype Actions = Done | Then(first: Action, rest: Actions)

  predicate Breaks(t: Tick)
    decreases t
  {
    ActionsBreak(t.actions) || t.throws
  }

  predicate ActionsBreak(actions: Actions)
    decreases actions
  {
    match actions
    case Done => false
    case Then(Enters(c), rest) => Breaks(c) || ActionsBreak(rest)
    case Then(_, rest) => ActionsBreak(rest)
  }

  /** How many ticks a queue can come to run, and callbacks those can enter. */
  function Weight(t: Tick): nat
    decreases t
  {
    1 + Queues(t.actions)
  }

  function Queues(actions: Actions): nat
    decreases actions
  {
    match actions
    case Done => 0
    case Then(QueueTick(t), rest) => Weight(t) + Queues(rest)
    case Then(Enters(c), rest) => Weight(c) + Queues(rest)
    case Then(Resumes, rest) => Queues(rest)
  }

  function Total(ticks: seq<Tick>): nat {
    if ticks == [] then 0 else Weight(ticks[0]) + Total(ticks[1..])
  }

  /** The ticks a callback queues, with those of the callbacks entered from it, up to a throw. */
  function Queued(actions: Actions): seq<Tick>
    decreases actions
  {
    match actions
    case Done => []
    case Then(QueueTick(t), rest) => [t] + Queued(rest)
    case Then(Enters(c), rest) => Queued(c.actions) + if Breaks(c) then [] else Queued(rest)
    case Then(Resumes, rest) => Queued(rest)
  }

  lemma {:induction false} TotalAppend(a: seq<Tick>, b: seq<Tick>)
    ensures Total(a + b) == Total(a) + Total(b)
  {
    if a == [] {
      assert a + b == b;
    } else {
      assert (a + b)[0] == a[0] && (a + b)[1..] == a[1..] + b;
      TotalAppend(a[1..], b);
    }
  }

  lemma {:induction false} QueuedWeigh(actions: Actions)
    ensures Total(Queued(actions)) <= Queues(actions)
    decreases actions
  {
    match actions
    case Done =>
    case Then(QueueTick(t), rest) =>
      QueuedWeigh(rest);
      assert ([t] + Queued(rest))[1..] == Queued(rest);
    case Then(Enters(c), rest) =>
      QueuedWeigh(c.actions);
      QueuedWeigh(rest);
      TotalAppend(Queued(c.actions), if Breaks(c) then [] else Queued(rest));
    case Then(Resumes, rest) => QueuedWeigh(rest);
  }

  /** The order ticks run in from a queue, and what is left of it when one throws. */
  function Drained(queue: seq<Tick>): (r: (seq<Tick>, seq<Tick>))
    decreases Total(queue)
  {
    if queue == [] then ([], [])
    else
      assert Total(Next(queue)) < Total(queue) by { Shrinks(queue); }
      if Breaks(queue[0]) then ([queue[0]], Next(queue))
      else ([queue[0]] + Drained(Next(queue)).0, Drained(Next(queue)).1)
  }

  /** The queue once its first tick has run. */
  function Next(queue: seq<Tick>): seq<Tick>
    requires queue != []
  {
    queue[1..] + Queued(queue[0].actions)
  }

  lemma Shrinks(queue: seq<Tick>)
    requires queue != []
    ensures Total(Next(queue)) < Total(queue)
  {
    QueuedWeigh(queue[0].actions);
    TotalAppend(queue[1..], Queued(queue[0].actions));
  }

  /** Whether a drain of a queue ends in a throw. */
  predicate Fails(queue: seq<Tick>) {
    var ran := Drained(queue).0;
    ran != [] && Breaks(ran[|ran| - 1])
  }

  lemma DrainedHead(queue: seq<Tick>)
    requires queue != []
    ensures Breaks(queue[0]) ==> Drained(queue) == ([queue[0]], Next(queue))
    ensures !Breaks(queue[0]) ==> Drained(queue) == ([queue[0]] + Drained(Next(queue)).0, Drained(Next(queue)).1)
    ensures Fails(queue) == (Breaks(queue[0]) || Fails(Next(queue)))
  {
    hide Breaks;
  }

  lemma NothingDrained()
    ensures Drained([]) == ([], []) && !Fails([])
  {
  }

  /** With no throw everything runs, what was queued first first; a throw is the last thing that ran. */
  lemma {:induction false} DrainedInOrder(queue: seq<Tick>)
    ensures !Fails(queue) <==> forall t <- Drained(queue).0 :: !Breaks(t)
    ensures !Fails(queue) ==> Drained(queue).1 == [] && queue <= Drained(queue).0
    decreases Total(queue)
  {
    hide Breaks;
    if queue != [] {
      DrainedHead(queue);
      if !Breaks(queue[0]) {
        var rest := Next(queue);
        Shrinks(queue);
        DrainedInOrder(rest);
        var ran := Drained(rest).0;
        assert Drained(queue).0 == [queue[0]] + ran && Drained(queue).1 == Drained(rest).1;
        assert queue == [queue[0]] + queue[1..];
      } else {
        assert Drained(queue).0 == [queue[0]] && queue[0] in Drained(queue).0;
      }
    }
  }

  /** A drain of `start` on its way: what has run since `was`, what is left, and whether the last that ran threw. */
  predicate OnTheWay(start: seq<Tick>, was: seq<Tick>, ran: seq<Tick>, left: seq<Tick>, thrown: bool) {
    if thrown then ran == was + Drained(start).0 && left == Drained(start).1 && Fails(start)
    else
      && ran + Drained(left).0 == was + Drained(start).0 && Drained(left).1 == Drained(start).1
      && Fails(left) == Fails(start)
  }

  lemma Departs(start: seq<Tick>, was: seq<Tick>)
    ensures OnTheWay(start, was, was, start, false)
  {
  }

  lemma GoesOn(start: seq<Tick>, was: seq<Tick>, ran: seq<Tick>, left: seq<Tick>)
    requires OnTheWay(start, was, ran, left, false) && left != []
    ensures OnTheWay(start, was, ran + [left[0]], Next(left), Breaks(left[0]))
    ensures Total(Next(left)) < Total(left)
  {
    hide Breaks, Drained, Next, Total, Fails;
    Shrinks(left);
    DrainedHead(left);
    assert ran + [left[0]] + Drained(Next(left)).0 == ran + ([left[0]] + Drained(Next(left)).0);
  }

  lemma Arrives(start: seq<Tick>, was: seq<Tick>, ran: seq<Tick>, left: seq<Tick>, thrown: bool)
    requires OnTheWay(start, was, ran, left, thrown) && (thrown || left == [])
    ensures ran == was + Drained(start).0 && left == Drained(start).1 && thrown == Fails(start)
  {
    hide Drained, Fails;
    NothingDrained();
    assert ran + [] == ran;
  }

  /** Whether a native await is resumed among a callback's actions, up to a throw. */
  predicate Resumed(actions: Actions)
    decreases actions
  {
    match actions
    case Done => false
    case Then(QueueTick(_), rest) => Resumed(rest)
    case Then(Enters(c), rest) => Resumed(c.actions) || (!Breaks(c) && Resumed(rest))
    case Then(Resumes, _) => true
  }

  /** Whether any of the ticks that ran resumed one. */
  predicate AnyResumed(ticks: seq<Tick>) {
    exists t :: t in ticks && Resumed(t.actions)
  }

  lemma AnyMore(was: seq<Tick>, ran: seq<Tick>, t: Tick)
    requires was <= ran
    ensures was <= ran + [t] && AnyResumed((ran + [t])[|was|..]) == (AnyResumed(ran[|was|..]) || Resumed(t.actions))
  {
    assert (ran + [t])[|was|..] == ran[|was|..] + [t];
    assert t in ran[|was|..] + [t];
  }

  lemma Regrouped(a: seq<Tick>, b: seq<Tick>, c: seq<Tick>)
    ensures a + (b + c) == a + b + c
  {
  }

  lemma NoneMore(was: seq<Tick>)
    ensures !AnyResumed(was[|was|..])
  {
  }

  class GuestLoop {
    var ticks: seq<Tick>
    var drainingTicks: bool
    var tickDrainScheduled: bool
    /** Guest code on the stack, as far as the engine entered it; the callbacks among it; a native await's turn. */
    var depth: nat
    var callbackDepth: nat
    var continuation: bool
    /** The drains enqueued as microtasks and not yet run. */
    var microtasks: nat
    /** Every tick ever queued, and every one run, in order. */
    ghost var queued: seq<Tick>
    ghost var ran: seq<Tick>

    constructor ()
      ensures Idle() && Nested() && ticks == [] && queued == [] && depth == 0 && !continuation
    {
      ticks, drainingTicks, tickDrainScheduled, microtasks, queued, ran := [], false, false, 0, [], [];
      depth, callbackDepth, continuation := 0, 0, false;
    }

    /** A scheduled drain is a microtask, and the only one. */
    ghost predicate Scheduled()
      reads this
    {
      microtasks == if tickDrainScheduled then 1 else 0
    }

    /** A callback is guest code; a tick running is still in the queue. */
    ghost predicate Nested()
      reads this
    {
      Scheduled() && callbackDepth <= depth && (drainingTicks ==> ticks != [])
    }

    /** Outside a drain: what was queued is what ran and what is queued still, and that has a drain coming. */
    ghost predicate Idle()
      reads this
    {
      !drainingTicks && Scheduled() && queued == ran + ticks && (ticks != [] ==> tickDrainScheduled)
    }

    /** With no guest code on the stack and no tick left by any, as far as can be told. */
    predicate FromTheLoop()
      reads this
    {
      depth == 0 && !continuation && ticks == []
    }

    method QueueGuestNextTick(callback: Tick)
      requires Scheduled() && (!drainingTicks ==> Idle())
      modifies this`ticks, this`tickDrainScheduled, this`microtasks, this`queued
      ensures Scheduled() && (!drainingTicks ==> Idle())
      ensures ticks == old(ticks) + [callback] && queued == old(queued) + [callback]
      ensures drainingTicks ==> tickDrainScheduled == old(tickDrainScheduled)
    {
      ticks, queued := ticks + [callback], queued + [callback];
      ScheduleTickDrain();
    }

    method ScheduleTickDrain()
      requires Scheduled()
      modifies this`tickDrainScheduled, this`microtasks
      ensures Scheduled()
      ensures tickDrainScheduled == (old(tickDrainScheduled) || (!drainingTicks && ticks != []))
    {
      if tickDrainScheduled || drainingTicks || ticks == [] {
        return;
      }
      tickDrainScheduled, microtasks := true, microtasks + 1;
    }

    /** A callback runs, with guest code on the stack; `thrown`: whether it throws. */
    method Run(callback: Tick) returns (thrown: bool)
      requires Nested() && (!drainingTicks ==> Idle() && depth > 0)
      modifies this
      ensures Nested() && (!drainingTicks ==> Idle()) && thrown == Breaks(callback)
      ensures depth == old(depth) && callbackDepth == old(callbackDepth) && drainingTicks == old(drainingTicks)
      ensures drainingTicks ==> tickDrainScheduled == old(tickDrainScheduled)
      ensures ran == old(ran)
      ensures ticks == old(ticks) + Queued(callback.actions) && queued == old(queued) + Queued(callback.actions)
      ensures continuation == (old(continuation) || Resumed(callback.actions))
      decreases if drainingTicks then 0 else 2, Weight(callback), 0
    {
      hide Total, Drained, Next, Fails, AnyResumed;
      var actions := callback.actions;
      thrown := false;
      while actions != Done && !thrown
        invariant Nested() && (!drainingTicks ==> Idle())
        invariant depth == old(depth) && callbackDepth == old(callbackDepth) && drainingTicks == old(drainingTicks)
        invariant drainingTicks ==> tickDrainScheduled == old(tickDrainScheduled)
        invariant ran == old(ran) && Queues(actions) <= Queues(callback.actions)
        invariant ticks + (if thrown then [] else Queued(actions)) == old(ticks) + Queued(callback.actions)
        invariant queued + (if thrown then [] else Queued(actions)) == old(queued) + Queued(callback.actions)
        invariant ActionsBreak(callback.actions) == (thrown || ActionsBreak(actions))
        invariant (continuation || (!thrown && Resumed(actions))) == (old(continuation) || Resumed(callback.actions))
        decreases actions
      {
        match actions.first {
          case QueueTick(t) =>
            Regrouped(ticks, [t], Queued(actions.rest));
            Regrouped(queued, [t], Queued(actions.rest));
            QueueGuestNextTick(t);
          case Enters(c) =>
            ghost var left := if Breaks(c) then [] else Queued(actions.rest);
            Regrouped(ticks, Queued(c.actions), left);
            Regrouped(queued, Queued(c.actions), left);
            NoneMore(ran);
            thrown := WithGuestCallback(c);
          case Resumes => continuation := true;
        }
        actions := actions.rest;
      }
      thrown := thrown || callback.throws;
    }

    /**
     * The engine's way into a callback. From the loop, a callback that returns leaves no tick: what it queued has run,
     * with all that queued, in order, before it is left; one that throws leaves them to a microtask. Anywhere else the
     * ticks wait, and none runs.
     */
    method WithGuestCallback(fn: Tick) returns (thrown: bool)
      requires Nested() && (!drainingTicks ==> Idle())
      modifies this
      ensures Nested() && (!drainingTicks ==> Idle())
      ensures depth == old(depth) && callbackDepth == old(callbackDepth) && drainingTicks == old(drainingTicks)
      ensures drainingTicks ==> tickDrainScheduled == old(tickDrainScheduled)
      ensures old(FromTheLoop()) && !Breaks(fn) ==>
                && ran == old(ran) + Drained(Queued(fn.actions)).0 && ticks == Drained(Queued(fn.actions)).1
                && thrown == Fails(Queued(fn.actions)) && (!thrown ==> ticks == [] && queued == ran)
      ensures !old(FromTheLoop()) || Breaks(fn) ==>
                && thrown == Breaks(fn) && ran == old(ran)
                && ticks == old(ticks) + Queued(fn.actions) && queued == old(queued) + Queued(fn.actions)
      ensures old(ran) <= ran
      ensures continuation == (old(continuation) || Resumed(fn.actions) || AnyResumed(ran[|old(ran)|..]))
      decreases if drainingTicks then 0 else 2, Weight(fn), 1
    {
      hide AnyResumed;
      NoneMore(ran);
      var fromTheLoop := FromTheLoop();
      depth := depth + 1;
      callbackDepth := callbackDepth + 1;
      thrown := Run(fn);
      if !thrown && fromTheLoop && callbackDepth == 1 {
        assert ticks == Queued(fn.actions);
        thrown := DrainGuestNextTicks();
      }
      callbackDepth := callbackDepth - 1;
      depth := depth - 1;
    }

    /** Everything queued runs, with what it queues, in order; a throw leaves the rest to a drain of its own. */
    method DrainGuestNextTicks() returns (thrown: bool)
      requires Nested() && (!drainingTicks ==> queued == ran + ticks)
      modifies this
      ensures Nested() && drainingTicks == old(drainingTicks)
      ensures depth == old(depth) && callbackDepth == old(callbackDepth)
      ensures old(drainingTicks) ==> !thrown && ticks == old(ticks) && ran == old(ran) && queued == old(queued)
      ensures old(ran) <= ran && continuation == (old(continuation) || AnyResumed(ran[|old(ran)|..]))
      ensures !old(drainingTicks) ==> Idle()
      ensures !old(drainingTicks) ==> ran == old(ran) + Drained(old(ticks)).0 && ticks == Drained(old(ticks)).1
      ensures !old(drainingTicks) ==> thrown == Fails(old(ticks)) && (!thrown ==> ticks == [] && queued == ran)
      decreases if drainingTicks then 0 else 1, 0, 0
    {
      hide Total, Weight, Queued, Queues, Drained, Breaks, Fails, OnTheWay, Resumed, AnyResumed;
      NoneMore(ran);
      thrown := false;
      if drainingTicks {
        return;
      }
      drainingTicks := true;
      var taken := 0;
      ghost var start, left := ticks, ticks;
      assert OnTheWay(start, old(ran), ran, left, false) by { Departs(start, ran); }
      while taken < |ticks| && !thrown
        invariant drainingTicks && Scheduled() && depth == old(depth) && callbackDepth == old(callbackDepth)
        invariant 0 <= taken <= |ticks| && left == ticks[taken..]
        invariant queued == ran + left && OnTheWay(start, old(ran), ran, left, thrown)
        invariant old(ran) <= ran && continuation == (old(continuation) || AnyResumed(ran[|old(ran)|..]))
        decreases !thrown, Total(left)
      {
        var callback := ticks[taken];
        GoesOn(start, old(ran), ran, left);
        AnyMore(old(ran), ran, callback);
        taken := taken + 1;
        ran := ran + [callback];
        thrown := Run(callback);
        assert ticks[taken..] == Next(left);
        left := ticks[taken..];
      }
      Arrives(start, old(ran), ran, left, thrown);
      ticks := ticks[taken..];
      drainingTicks := false;
      ScheduleTickDrain();
    }

    /** The microtask a queueing scheduled, entered from the loop. */
    method RunMicrotask() returns (thrown: bool)
      requires Idle() && Nested() && microtasks > 0
      modifies this
      ensures Idle() && Nested() && depth == old(depth)
      ensures ran == old(ran) + Drained(old(ticks)).0 && ticks == Drained(old(ticks)).1
      ensures thrown == Fails(old(ticks)) && (!thrown ==> ticks == [] && queued == ran)
      ensures old(ran) <= ran && continuation == (old(continuation) || AnyResumed(ran[|old(ran)|..]))
    {
      microtasks, tickDrainScheduled := microtasks - 1, false;
      depth := depth + 1;
      thrown := DrainGuestNextTicks();
      depth := depth - 1;
    }

    /** A native await's continuation begins its turn, and the turn's end. */
    method ResumeGuestTurn()
      requires Nested() && (!drainingTicks ==> Idle())
      modifies this`continuation
      ensures Nested() && (!drainingTicks ==> Idle()) && continuation && !FromTheLoop()
    {
      continuation := true;
    }

    method EndContinuation()
      requires Nested() && (!drainingTicks ==> Idle())
      modifies this`continuation
      ensures Nested() && (!drainingTicks ==> Idle()) && (FromTheLoop() <==> depth == 0 && ticks == [])
    {
      continuation := false;
    }
  }
}
