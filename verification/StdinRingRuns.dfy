/** The promises of the stdin ring over whole runs, however its two threads interleave. */
module StdinRingRuns {
  import opened Wrappers
  import opened Words
  import opened StdinRing
  import opened StdinRingSafety

  lemma {:induction false} EveryStateOk(run: seq<Ring>, events: seq<Event>, i: nat)
    requires IsRun(run, events) && i < |run|
    ensures Inv(run[i])
  {
    hide Inv, Do, Create, Enabled;
    if i == 0 {
      var capacity: int :| Create(capacity) == Some(run[0]);
      CreateOk(capacity);
    } else {
      EveryStateOk(run, events, i - 1);
      DoOk(run[i - 1], events[i - 1]);
    }
  }

  // ------------------------------------------------------------------ first in, first out

  /** The bytes a call answers with as the ring goes from s to t. */
  ghost function Answered(s: Ring, t: Ring): seq<Byte> {
    if s.reader.NotifyWriter? && t.reader.Ready? && t.reader.last.Took? then t.reader.last.bytes else []
  }

  /** The bytes the reader's calls have answered with, in order, over the first i steps. */
  ghost function Delivered(run: seq<Ring>, i: nat): seq<Byte>
    requires i < |run|
  {
    if i == 0 then [] else Delivered(run, i - 1) + Answered(run[i - 1], run[i])
  }

  /** Taken by a call that has not answered yet. */
  ghost function Undelivered(s: Ring): seq<Byte> {
    if s.reader.NotifyWriter? then s.reader.got else []
  }

  lemma StepDelivers(s: Ring, e: Event)
    requires Inv(s) && Enabled(s, e)
    ensures s.reader.NotifyWriter? ==>
              Do(s, e).taken == s.taken && Answered(s, Do(s, e)) + Undelivered(Do(s, e)) == Undelivered(s)
    ensures !s.reader.NotifyWriter? ==>
              Do(s, e).taken == s.taken + Undelivered(Do(s, e)) && Answered(s, Do(s, e)) == [] == Undelivered(s)
  {
    hide Wrap, Slot, PieceSlot, Difference, Unread, PromisesOk, WriterOk, RingOk, ReaderOk;
    if e == WriterRuns {
      hide WriterStep;
      WriterLeaves(s);
    }
  }

  lemma WriterLeaves(s: Ring)
    requires Inv(s)
    ensures var t := WriterStep(s);
            && t.taken == s.taken && t.readWord == s.readWord && s.published <= t.published && s.accepted <= t.accepted
            && (s.closed ==> t.closed && t.accepted == s.accepted)
            && (t.reader == s.reader || (s.reader.AsleepReader? && t.reader == LoadSignal(s.reader.length)))
  {
    hide Wrap, Slot, PieceSlot, Difference, Inv;
  }

  lemma ReaderLeaves(s: Ring)
    requires Inv(s)
    ensures var t := ReaderStep(s);
            t.published == s.published && t.accepted == s.accepted && t.closed == s.closed
  {
    hide Wrap, Slot, PieceSlot, Difference, Unread, PromisesOk, ReaderOk, WriterOk;
  }

  /** What the calls have answered with, then what a call still to answer took, is what was taken. */
  lemma {:induction false} DeliveredIsTaken(run: seq<Ring>, events: seq<Event>, i: nat)
    requires IsRun(run, events) && i < |run|
    ensures Delivered(run, i) + Undelivered(run[i]) == run[i].taken
  {
    hide Inv, Do, Enabled, Answered;
    if i > 0 {
      var s, t := run[i - 1], run[i];
      DeliveredIsTaken(run, events, i - 1);
      EveryStateOk(run, events, i - 1);
      StepDelivers(s, events[i - 1]);
      assert Delivered(run, i) == Delivered(run, i - 1) + Answered(s, t);
      if s.reader.NotifyWriter? {
        assert Delivered(run, i) + Undelivered(t) == Delivered(run, i - 1) + (Answered(s, t) + Undelivered(t));
      } else {
        assert Delivered(run, i) == Delivered(run, i - 1) == s.taken;
      }
    }
  }

  /** What the producer has had accepted only grows, and stops at close. */
  lemma {:induction false} AcceptedGrows(run: seq<Ring>, events: seq<Event>, i: nat, j: nat)
    requires IsRun(run, events) && i <= j < |run|
    ensures run[i].accepted <= run[j].accepted && (run[i].closed ==> run[j].closed)
    ensures run[i].closed ==> run[j].accepted == run[i].accepted
    decreases j - i
  {
    hide Inv, ReaderStep, WriterStep;
    if i < j {
      AcceptedGrows(run, events, i, j - 1);
      EveryStateOk(run, events, j - 1);
      WriterLeaves(run[j - 1]);
      ReaderLeaves(run[j - 1]);
    }
  }

  /**
   * Every byte the calls answer with is the next one the producer wrote: none is lost, repeated, reordered or
   * overwritten unread, at any point of any run.
   */
  lemma FirstInFirstOut(run: seq<Ring>, events: seq<Event>, i: nat, j: nat)
    requires IsRun(run, events) && i <= j < |run|
    ensures Delivered(run, i) <= run[i].taken <= run[i].published <= run[i].accepted <= run[j].accepted
    ensures |run[i].published| - |run[i].taken| <= run[i].capacity
    ensures run[i].capacity > 0 && |run[i].data| == run[i].capacity
    ensures forall k :: |run[i].taken| <= k < |run[i].published| ==>
              run[i].data[Slot(k, run[i].capacity)] == run[i].published[k]
  {
    hide IsRun, Slot, Wrap, ReaderOk, PromisesOk;
    EveryStateOk(run, events, i);
    DeliveredIsTaken(run, events, i);
    AcceptedGrows(run, events, i, j);
    assert Delivered(run, i) <= Delivered(run, i) + Undelivered(run[i]);
    PublishedAccepted(run[i]);
  }

  lemma PublishedAccepted(s: Ring)
    requires Inv(s)
    ensures s.published <= s.accepted
  {
    hide Unread, ReaderOk, PromisesOk;
  }

  /** A read of 0 comes only once every byte ever accepted was answered with, and nothing is accepted after it. */
  lemma EndOfFileIsFinal(run: seq<Ring>, events: seq<Event>, i: nat, j: nat)
    requires IsRun(run, events) && i <= j < |run| && run[i].reader == Ready(EndOfFile)
    ensures run[i].closed && Delivered(run, i) == run[i].accepted == run[j].accepted
  {
    hide IsRun, Unread, WriterOk, PromisesOk;
    EveryStateOk(run, events, i);
    DeliveredIsTaken(run, events, i);
    AcceptedGrows(run, events, i, j);
    assert Delivered(run, i) + [] == Delivered(run, i);
  }

  // ------------------------------------------------------------------ no lost wakeup

  /** The writer has published bytes or closed, and has its signal or its notify of it still to make. */
  ghost predicate WakeupDue(s: Ring) {
    Unsignalled(s) || Unnotified(s)
  }

  /** A sleeping reader has nothing to read and no end to report, or is about to be woken; a promise likewise. */
  lemma NoLostWakeup(run: seq<Ring>, events: seq<Event>, i: nat)
    requires IsRun(run, events) && i < |run|
    ensures var s := run[i];
            && (s.reader.AsleepReader? ==> (s.published == s.taken && !s.closed) || WakeupDue(s))
            && (forall p :: p in s.promises ==> (|s.published| <= p.taken && !s.closed) || WakeupDue(s))
            && (s.writer.AsleepWriter? ==> |s.published| - |s.taken| == s.capacity || s.reader.NotifyWriter?)
  {
    hide IsRun, Unread;
    EveryStateOk(run, events, i);
  }

  /** The two ends are never both asleep, though SIGNAL and the indexes wrap. */
  lemma NeverBothAsleep(run: seq<Ring>, events: seq<Event>, i: nat)
    requires IsRun(run, events) && i < |run|
    ensures !(run[i].reader.AsleepReader? && run[i].writer.AsleepWriter?)
  {
    EveryStateOk(run, events, i);
    NoLostWakeup(run, events, i);
  }

  /** A wakeup due is made by the writer's next two steps: nobody is left asleep, and no promise waiting. */
  lemma WakeupIsMade(s: Ring)
    requires s.capacity > 0 && |s.data| == s.capacity && WakeupDue(s)
    ensures WriterStep(s).capacity > 0 && |WriterStep(s).data| == WriterStep(s).capacity
    ensures !WriterStep(WriterStep(s)).reader.AsleepReader? && WriterStep(WriterStep(s)).promises == {}
  {
    hide Wrap, Slot, PieceSlot, Difference;
  }

  /**
   * With bytes or an end to report, the writer's next two steps wake a sleeping reader; with bytes published since a
   * promise began to wait, or an end, they resolve it and every other.
   */
  lemma ReaderIsWoken(run: seq<Ring>, events: seq<Event>, i: nat)
    requires IsRun(run, events) && i < |run|
    ensures Inv(run[i]) && Inv(WriterStep(run[i]))
    ensures run[i].reader.AsleepReader? && (run[i].published != run[i].taken || run[i].closed) ==>
              !WriterStep(WriterStep(run[i])).reader.AsleepReader?
    ensures forall p <- run[i].promises :: p.taken < |run[i].published| || run[i].closed ==>
              WriterStep(WriterStep(run[i])).promises == {}
  {
    EveryStateOk(run, events, i);
    NoLostWakeup(run, events, i);
    WriterStepOk(run[i]);
    hide IsRun, WriterStep, WakeupDue;
    if WakeupDue(run[i]) {
      WakeupIsMade(run[i]);
    }
  }

  /** With room in the ring, the reader's next step wakes a sleeping writer. */
  lemma WriterIsWoken(run: seq<Ring>, events: seq<Event>, i: nat)
    requires IsRun(run, events) && i < |run|
    requires |run[i].published| - |run[i].taken| < run[i].capacity
    ensures Inv(run[i]) && (run[i].writer.AsleepWriter? ==> ReaderStep(run[i]).writer.LoadReadIndex?)
  {
    EveryStateOk(run, events, i);
    NoLostWakeup(run, events, i);
    hide IsRun, Wrap, Slot;
  }
}
