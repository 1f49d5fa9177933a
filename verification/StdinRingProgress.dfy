/**
 * No call of either end of the stdin ring goes on for ever, but waiting for the other, and no write is lost on the way.
 */
module StdinRingProgress {
  import opened Wrappers
  import opened Words
  import opened StdinRing
  import opened StdinRingSafety
  import opened StdinRingRuns
  import opened StdinRingCalls

  // ------------------------------------------------------------------ a ring to begin with

  /** The capacities are the powers of two up to 2^30, and a new ring is empty, open and at rest. */
  lemma CapacitiesAre(k: nat)
    requires k <= 30
    ensures Create(Pow2(k)).Some?
    ensures var s := Create(Pow2(k)).value;
      && s.capacity == Pow2(k) && s.reader == Ready(NoCall) && s.writer == Free && !s.closed
      && s.published == s.taken == s.accepted == []
  {
    PowersOk(k);
    PowersGrow(k, 30);
    WordIsPower();
  }

  lemma {:induction false} PowersOk(k: nat)
    ensures PowerOfTwo(Pow2(k))
  {
    if k > 0 {
      PowersOk(k - 1);
      assert Pow2(k) / 2 == Pow2(k - 1);
    }
  }

  lemma {:induction false} PowersGrow(j: nat, k: nat)
    requires j <= k
    ensures Pow2(j) <= Pow2(k)
    decreases k
  {
    if j < k { PowersGrow(j, k - 1); }
  }

  lemma OtherCapacities(capacity: int) returns (k: nat)
    requires Create(capacity).Some?
    ensures k <= 30 && capacity == Pow2(k)
  {
    k := ExponentOf(capacity);
    WordIsPower();
    if k > 30 {
      PowersGrow(31, k);
    }
  }

  lemma {:induction false} ExponentOf(n: nat) returns (k: nat)
    requires PowerOfTwo(n)
    ensures n == Pow2(k)
    decreases n
  {
    if n == 1 {
      k := 0;
    } else {
      var half := ExponentOf(n / 2);
      k := half + 1;
    }
  }

  // ------------------------------------------------------------------ what was written

  /** The bytes of the writes called before the ring was closed, in order. */
  function WrittenBy(events: seq<Event>): seq<Byte> {
    if events == [] then []
    else
      var before, e := events[..|events| - 1], events[|events| - 1];
      WrittenBy(before) + if e.Write? && Close !in before then e.bytes else []
  }

  function NotYetChecked(s: Ring): seq<Byte> {
    if s.writer.CheckClosed? && !s.closed then s.writer.bytes else []
  }

  lemma WriteStep(s: Ring, e: Event)
    requires Inv(s) && Enabled(s, e)
    ensures Do(s, e).accepted + NotYetChecked(Do(s, e))
         == s.accepted + NotYetChecked(s) + if e.Write? && !s.closed then e.bytes else []
    ensures Do(s, e).closed || Do(s, e).writer.Closing? <==> s.closed || s.writer.Closing? || e.Close?
  {
    hide ReaderOk, PromisesOk, Unread, Slot, Wrap, PieceSlot, Difference;
    if e == ReaderRuns {
      hide ReaderStep;
      ReaderLeavesWriter(s);
    }
  }

  lemma ReaderLeavesWriter(s: Ring)
    requires Inv(s)
    ensures var t := ReaderStep(s);
      && t.accepted == s.accepted && t.closed == s.closed
      && (t.writer == s.writer || (s.writer.AsleepWriter? && t.writer.LoadReadIndex?))
  {
    hide ReaderOk, PromisesOk, Unread, WriterOk, Slot, Wrap, Difference;
  }

  /** What the ring has accepted is what was written before it was closed, but for a write still to look at CLOSED. */
  lemma {:induction false} AcceptedIsWritten(run: seq<Ring>, events: seq<Event>, i: nat)
    requires IsRun(run, events) && i < |run|
    ensures run[i].accepted + NotYetChecked(run[i]) == WrittenBy(events[..i])
    ensures run[i].closed || run[i].writer.Closing? <==> Close in events[..i]
  {
    hide Inv, Do, Enabled;
    if i == 0 {
      NothingYet(run, events);
    } else {
      var e := events[i - 1];
      AcceptedIsWritten(run, events, i - 1);
      EveryStateOk(run, events, i - 1);
      WriteStep(run[i - 1], e);
      assert events[..i] == events[..i - 1] + [e] && events[..i][..i - 1] == events[..i - 1];
      if e.Write? { WriteIsCalled(run[i - 1], e); }
    }
  }

  lemma NothingYet(run: seq<Ring>, events: seq<Event>)
    requires IsRun(run, events)
    ensures run[0].accepted == NotYetChecked(run[0]) == [] && !run[0].closed && run[0].writer.Free?
  {
  }

  lemma WriteIsCalled(s: Ring, e: Event)
    requires Enabled(s, e) && e.Write?
    ensures !s.writer.Closing?
  {
  }

  // ------------------------------------------------------------------ the reader

  /** At most so many of its own steps until a reader's call is answered, sleeps or looks again. */
  function ReaderLeft(r: Reader): int {
    match r
    case LoadSignal(n) => 7 + n
    case LookWrite(_, n) => 6 + n
    case LookRead(_, n, _, _) => 5 + n
    case LookClosed(_, _) => 4
    case AgainWrite(_, _) => 3
    case AgainRead(_, _, _, _) => 2
    case WaitSignal(_, _) => 1
    case LoadRead(count) => 4 + count
    case CopyOut(_, count, got) => 3 + count - |got|
    case StoreRead(_, _) => 2
    case NotifyWriter(_) => 1
    case WhenSignal => 5
    case WhenWrite(_) => 4
    case WhenRead(_, _, _) => 3
    case WhenClosed(_) => 2
    case WhenWait(_) => 1
    case _ => 0
  }

  lemma ReaderWaits(s: Ring)
    requires Inv(s) && s.reader.WaitSignal?
    ensures var r := ReaderStep(s).reader;
      r.AsleepReader? || (r == LoadSignal(s.reader.length) && s.signals > s.reader.held.signals)
  {
    hide Unread, WriterOk, PromisesOk, Wrap, Slot, Difference;
    WrapInjective(s.signals, s.reader.held.signals);
  }

  lemma ReaderCounts(s: Ring)
    requires Inv(s) && (s.reader.LookRead? || s.reader.LoadRead? || s.reader.CopyOut?)
    ensures 0 <= ReaderLeft(ReaderStep(s).reader) < ReaderLeft(s.reader)
  {
    hide Unread, WriterOk, PromisesOk, HeldOk, SignalsSince, Wrap, Slot, Difference;
  }

  /** A step of the reader brings its call nearer an answer; it looks again only where a signal came since it looked. */
  lemma ReaderGoesOn(s: Ring)
    requires Inv(s) && !s.reader.Ready? && !s.reader.AsleepReader?
    ensures var r := ReaderStep(s).reader;
      && ReaderLeft(s.reader) > 0
      && if s.reader.WaitSignal? && r.LoadSignal? then r.length == s.reader.length && s.signals > s.reader.held.signals
         else 0 <= ReaderLeft(r) < ReaderLeft(s.reader)
  {
    if s.reader.WaitSignal? {
      ReaderWaits(s);
      hide Inv, ReaderStep;
    } else if s.reader.LookRead? || s.reader.LoadRead? || s.reader.CopyOut? {
      ReaderCounts(s);
      hide Inv, ReaderStep;
    } else {
      hide Inv, Slot, Wrap, Difference;
    }
  }

  /** Steps of one end among the events from i to j. */
  function OwnSteps(events: seq<Event>, own: Event, i: nat, j: nat): nat
    requires i <= j <= |events|
    decreases j
  {
    if i == j then 0 else OwnSteps(events, own, i, j - 1) + if events[j - 1] == own then 1 else 0
  }

  /** A call not answered by the j-th state, asleep nowhere nor looking again, has made no more steps than its bound. */
  lemma {:induction false} CallIsShort(run: seq<Ring>, events: seq<Event>, i: nat, j: nat)
    requires IsRun(run, events) && i <= j < |run|
    requires forall k :: i <= k <= j ==> !run[k].reader.Ready? && !run[k].reader.AsleepReader?
    requires forall k :: i < k <= j ==> !run[k].reader.LoadSignal?
    ensures 0 <= ReaderLeft(run[j].reader)
    ensures OwnSteps(events, ReaderRuns, i, j) + ReaderLeft(run[j].reader) <= ReaderLeft(run[i].reader)
    decreases j - i
  {
    hide Inv, ReaderStep, WriterStep, ReaderLeft;
    EveryStateOk(run, events, j);
    ReaderGoesOn(run[j]);
    if i < j {
      CallIsShort(run, events, i, j - 1);
      EveryStateOk(run, events, j - 1);
      ReaderGoesOn(run[j - 1]);
      WriterLeaves(run[j - 1]);
    }
  }

  /** A call that will be answered in this round: with bytes for it, or at the end of what there ever is. */
  ghost predicate Serves(s: Ring) {
    match s.reader
    case LookWrite(_, n) => n > 0 && (There(s) > 0 || s.closed)
    case LookRead(_, n, _, seen) => n > 0 && (seen > |s.taken| || (s.closed && seen == |s.published|))
    case LookClosed(_, n) => n > 0 && s.closed && s.published == s.taken
    case AgainWrite(_, n) => n > 0 && s.closed && s.published == s.taken
    case AgainRead(_, n, _, _) => n > 0 && s.closed && s.published == s.taken
    case LoadRead(_) => true
    case CopyOut(_, _, _) => true
    case StoreRead(_, _) => true
    case NotifyWriter(_) => true
    case _ => false
  }

  predicate Answer(r: Reader) {
    r.Ready? && (r.last.Took? || r.last.EndOfFile?)
  }

  lemma ServesOn(s: Ring)
    requires Inv(s) && Serves(s)
    ensures var t := ReaderStep(s); Answer(t.reader) || (Serves(t) && ReaderLeft(t.reader) < ReaderLeft(s.reader))
  {
    hide Unread, WriterOk, PromisesOk, Wrap, Slot, Difference;
    if s.reader.LookRead? || s.reader.AgainRead? { DifferenceOfWraps(s.reader.seen, |s.taken|); }
  }

  lemma ServesStill(s: Ring)
    requires Inv(s) && Serves(s)
    ensures Serves(WriterStep(s)) && WriterStep(s).reader == s.reader
  {
    WriterLeaves(s);
    WriterStepOk(s);
    if s.closed {
      ClosedMeansDone(s);
      ClosedMeansDone(WriterStep(s));
    }
    hide Inv, WriterStep;
  }

  /**
   * A read that asked for something, at its look at a ring with bytes in it or closed, is answered, with bytes or with
   * the end, within so many of its own steps, however the writer's fall between them.
   */
  lemma ReadIsAnswered(run: seq<Ring>, events: seq<Event>, i: nat, j: nat)
    requires IsRun(run, events) && i <= j < |run|
    requires run[i].reader.LookWrite? && run[i].reader.length > 0 && (run[i].published != run[i].taken || run[i].closed)
    requires OwnSteps(events, ReaderRuns, i, j) >= 6 + run[i].reader.length
    ensures exists k :: i < k <= j && Answer(run[k].reader)
  {
    EveryStateOk(run, events, i);
    TakenArePublished(run[i]);
    ServedBy(run, events, i, j);
    if Serving(run, events, i, j) {
      EveryStateOk(run, events, j);
      LeftNothing(run[j]);
    }
  }

  lemma LeftNothing(s: Ring)
    requires Inv(s) && Serves(s)
    ensures ReaderLeft(s.reader) > 0
  {
    hide Unread, WriterOk, PromisesOk;
  }

  ghost predicate Serving(run: seq<Ring>, events: seq<Event>, i: nat, j: nat)
    requires i <= j <= |events| && j < |run|
  {
    Serves(run[j]) && OwnSteps(events, ReaderRuns, i, j) + ReaderLeft(run[j].reader) <= ReaderLeft(run[i].reader)
  }

  lemma {:induction false} ServedBy(run: seq<Ring>, events: seq<Event>, i: nat, j: nat)
    requires IsRun(run, events) && i <= j < |run| && Serves(run[i])
    ensures Serving(run, events, i, j) || exists k :: i < k <= j && Answer(run[k].reader)
    decreases j - i
  {
    hide Inv, ReaderStep, WriterStep, ReaderLeft, Serves;
    if i < j {
      ServedBy(run, events, i, j - 1);
      if Serving(run, events, i, j - 1) {
        EveryStateOk(run, events, j - 1);
        ServesOn(run[j - 1]);
        ServesStill(run[j - 1]);
        Busy(run[j - 1]);
        if events[j - 1].Write? || events[j - 1].Close? { ServesSame(run[j - 1], run[j]); }
      }
    }
  }

  lemma Busy(s: Ring)
    requires Serves(s)
    ensures !s.reader.Ready?
  {
  }

  lemma ServesSame(s: Ring, t: Ring)
    requires Serves(s) && t == s.(writer := t.writer)
    ensures Serves(t) && t.reader == s.reader
  {
  }

  // ------------------------------------------------------------------ the writer

  /** At most so many of its own steps until a write or a close is over, sleeps or looks for room again. */
  function WriterLeft(w: Writer): int {
    match w
    case CheckClosed(bytes) => 7 * |bytes| + 1
    case LoadReadIndex(bytes, offset) => 7 * (|bytes| - offset)
    case LoadWriteIndex(bytes, offset, _, _) => 7 * (|bytes| - offset) - 1
    case WaitRead(bytes, offset, _, _) => 7 * (|bytes| - offset) - 2
    case CopyIn(bytes, offset, _, _, done) => 7 * (|bytes| - offset) - 2 - done
    case StoreWrite(bytes, offset, _, count) => 7 * (|bytes| - offset) - 3 - count
    case AddSignal(bytes, offset) => 7 * (|bytes| - offset) + 2
    case NotifyReader(bytes, offset) => 7 * (|bytes| - offset) + 1
    case Closing => 3
    case CloseSignal => 2
    case CloseNotify => 1
    case _ => 0
  }

  lemma WriterCopies(s: Ring)
    requires Inv(s) && (s.writer.CopyIn? || s.writer.StoreWrite? || s.writer.AddSignal? || s.writer.NotifyReader?)
    ensures WriterLeft(s.writer) > 0 && 0 <= WriterLeft(WriterStep(s).writer) < WriterLeft(s.writer)
  {
    hide Unread, ReaderOk, PromisesOk, RingOk, Wrap, Slot, PieceSlot, Difference;
  }

  /** A step of the writer brings its call nearer its end; it looks for room again only where bytes were taken since. */
  lemma WriterGoesOnward(s: Ring)
    requires Inv(s) && !s.writer.Free? && !s.writer.AsleepWriter?
    ensures var w := WriterStep(s).writer;
      && WriterLeft(s.writer) > 0
      && if s.writer.WaitRead? && w.LoadReadIndex? then w.offset == s.writer.offset && |s.taken| > s.writer.taken
         else 0 <= WriterLeft(w) < WriterLeft(s.writer)
  {
    if s.writer.CopyIn? || s.writer.StoreWrite? || s.writer.AddSignal? || s.writer.NotifyReader? {
      WriterCopies(s);
      hide Inv, WriterStep, WriterLeft;
    } else {
      hide Unread, ReaderOk, PromisesOk, Wrap, Slot, PieceSlot, Difference;
      if s.writer.LoadWriteIndex? { DifferenceOfWraps(|s.published|, s.writer.taken); }
      if s.writer.WaitRead? { WrapInjective(|s.taken|, s.writer.taken); }
    }
  }

  lemma ReaderLeavesIt(s: Ring)
    requires Inv(s) && !s.writer.AsleepWriter?
    ensures ReaderStep(s).writer == s.writer
  {
    ReaderLeavesWriter(s);
  }

  /**
   * A write or a close not over by the j-th state, asleep nowhere nor looking again, has made no more steps than its
   * bound.
   */
  lemma {:induction false} WriteIsShort(run: seq<Ring>, events: seq<Event>, i: nat, j: nat)
    requires IsRun(run, events) && i <= j < |run|
    requires forall k :: i <= k <= j ==> !run[k].writer.Free? && !run[k].writer.AsleepWriter?
    requires forall k :: i <= k < j && run[k].writer.WaitRead? ==> !run[k + 1].writer.LoadReadIndex?
    ensures OwnSteps(events, WriterRuns, i, j) + WriterLeft(run[j].writer) <= WriterLeft(run[i].writer)
    decreases j - i
  {
    hide Inv, ReaderStep, WriterStep, WriterLeft;
    if i < j {
      WriteIsShort(run, events, i, j - 1);
      EveryStateOk(run, events, j - 1);
      WriterGoesOnward(run[j - 1]);
      ReaderLeavesIt(run[j - 1]);
    }
  }
}
