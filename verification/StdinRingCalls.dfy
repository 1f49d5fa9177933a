/** What each call of the stdin ring's reader answers, against what was in the ring when it looked, over whole runs. */
module StdinRingCalls {
  import opened Wrappers
  import opened Words
  import opened StdinRing
  import opened StdinRingSafety
  import opened StdinRingRuns

  predicate IsCall(e: Event) {
    e.Take? || e.TakeBlocking? || e.WhenWrittenCall?
  }

  /** The last call made in the first i events. */
  function CallAt(events: seq<Event>, i: nat): (c: int)
    requires i <= |events|
    ensures -1 <= c < i && (c >= 0 ==> IsCall(events[c]))
  {
    if i == 0 then -1 else if IsCall(events[i - 1]) then i - 1 else CallAt(events, i - 1)
  }

  /** The call that the i-th state is in, or has just been answered, asked for up to n bytes. */
  ghost predicate Asked(events: seq<Event>, i: nat, n: nat)
    requires i <= |events|
  {
    var c := CallAt(events, i);
    c >= 0 && (events[c] == Take(n) || events[c] == TakeBlocking(n))
  }

  ghost predicate Reads(events: seq<Event>, i: nat)
    requires i <= |events|
  {
    exists n: nat :: Asked(events, i, n)
  }

  /** The call's j-th state looks at what is there: its next step loads the write index. */
  ghost predicate LooksAt(run: seq<Ring>, events: seq<Event>, i: nat, j: nat)
    requires |run| == |events| + 1 && i <= |events|
  {
    && CallAt(events, i) < j < i && events[j] == ReaderRuns
    && (run[j].reader.LookWrite? || run[j].reader.AgainWrite? || run[j].reader.WhenWrite?)
  }

  /** It looks whether the ring was closed. */
  ghost predicate LooksClosed(run: seq<Ring>, events: seq<Event>, i: nat, j: nat)
    requires |run| == |events| + 1 && i <= |events|
  {
    CallAt(events, i) < j < i && events[j] == ReaderRuns && (run[j].reader.LookClosed? || run[j].reader.WhenClosed?)
  }

  ghost predicate InCall(events: seq<Event>, i: nat, j: nat)
    requires i <= |events|
  {
    CallAt(events, i) < j <= i
  }

  /** Bytes published and not taken. */
  function There(s: Ring): nat {
    if |s.taken| <= |s.published| then |s.published| - |s.taken| else 0
  }

  // ------------------------------------------------------------------ what a position has seen

  /** A look of this call found this many bytes for it, the first of those not taken before. */
  ghost predicate Fits(run: seq<Ring>, events: seq<Event>, i: nat, n: nat, count: nat, taken: seq<Byte>)
    requires |run| == |events| + 1 && i <= |events|
  {
    count > 0 && exists j: nat :: LooksAt(run, events, i, j) && count == Min(n, There(run[j])) && run[j].taken == taken
  }

  /** This many bytes are what a look of this call found for what it asked. */
  ghost predicate GivesAsked(run: seq<Ring>, events: seq<Event>, i: nat, count: nat, taken: seq<Byte>)
    requires |run| == |events| + 1 && i <= |events|
  {
    exists n: nat :: Asked(events, i, n) && Fits(run, events, i, n, count, taken)
  }

  /** A look of this call found no byte for it. */
  ghost predicate FoundNone(run: seq<Ring>, events: seq<Event>, i: nat, n: nat)
    requires |run| == |events| + 1 && i <= |events|
  {
    exists j: nat :: LooksAt(run, events, i, j) && Min(n, There(run[j])) == 0
  }

  ghost predicate Saw(run: seq<Ring>, events: seq<Event>, i: nat, seen: nat, taken: seq<Byte>)
    requires |run| == |events| + 1 && i <= |events|
  {
    exists j: nat :: LooksAt(run, events, i, j) && |run[j].published| == seen && run[j].taken == taken
  }

  /** The same of a look made after the ring was closed. */
  ghost predicate SawAgain(run: seq<Ring>, events: seq<Event>, i: nat, seen: nat, taken: seq<Byte>)
    requires |run| == |events| + 1 && i <= |events|
  {
    exists j: nat :: LooksAt(run, events, i, j) && run[j].closed && |run[j].published| == seen && run[j].taken == taken
  }

  ghost predicate SawNoneThere(run: seq<Ring>, events: seq<Event>, i: nat)
    requires |run| == |events| + 1 && i <= |events|
  {
    exists j: nat :: LooksAt(run, events, i, j) && There(run[j]) == 0
  }

  ghost predicate SawSome(run: seq<Ring>, events: seq<Event>, i: nat)
    requires |run| == |events| + 1 && i <= |events|
  {
    exists j: nat :: LooksAt(run, events, i, j) && There(run[j]) > 0
  }

  ghost predicate SawClosed(run: seq<Ring>, events: seq<Event>, i: nat, closed: bool)
    requires |run| == |events| + 1 && i <= |events|
  {
    exists j: nat :: LooksClosed(run, events, i, j) && run[j].closed == closed
  }

  /** Nothing was there at a look of this call made after the ring was closed. */
  ghost predicate SawTheEnd(run: seq<Ring>, events: seq<Event>, i: nat)
    requires |run| == |events| + 1 && i <= |events|
  {
    exists j: nat :: LooksAt(run, events, i, j) && run[j].closed && There(run[j]) == 0
  }

  /** So many signals had been made at some moment of this call. */
  ghost predicate Counted(run: seq<Ring>, events: seq<Event>, i: nat, signals: nat)
    requires |run| == |events| + 1 && i <= |events|
  {
    exists j: nat :: InCall(events, i, j) && run[j].signals == signals
  }

  /** A signal was made between two moments of this call. */
  ghost predicate Signalled(run: seq<Ring>, events: seq<Event>, i: nat)
    requires |run| == |events| + 1 && i <= |events|
  {
    exists j: nat, k: nat :: InCall(events, i, j) && InCall(events, i, k) && run[j].signals < run[k].signals
  }

  ghost predicate Told(run: seq<Ring>, events: seq<Event>, i: nat, r: Reader, taken: seq<Byte>)
    requires |run| == |events| + 1 && i <= |events|
  {
    var c := CallAt(events, i);
    match r
    case Ready(last) => Answers(run, events, i, last, taken)
    case LoadSignal(n) => c >= 0 && events[c] == TakeBlocking(n)
    case LookWrite(held, n) => Asked(events, i, n) && HoldsIn(events, i, held)
    case LookRead(held, n, _, seen) => Asked(events, i, n) && HoldsIn(events, i, held) && Saw(run, events, i, seen, taken)
    case LookClosed(held, n) => Asked(events, i, n) && HoldsIn(events, i, held) && FoundNone(run, events, i, n)
    case AgainWrite(held, n) => Asked(events, i, n) && HoldsIn(events, i, held) && FoundNone(run, events, i, n)
    case AgainRead(held, n, _, seen) =>
      && Asked(events, i, n) && HoldsIn(events, i, held) && FoundNone(run, events, i, n)
      && SawAgain(run, events, i, seen, taken)
    case WaitSignal(_, n) => c >= 0 && events[c] == TakeBlocking(n) && FoundNone(run, events, i, n)
    case AsleepReader(_, n) => c >= 0 && events[c] == TakeBlocking(n) && FoundNone(run, events, i, n)
    case LoadRead(count) => GivesAsked(run, events, i, count, taken)
    case CopyOut(_, count, _) => GivesAsked(run, events, i, count, taken)
    case StoreRead(_, got) => GivesAsked(run, events, i, |got|, taken)
    case NotifyWriter(got) => Answers(run, events, i, Took(got), taken)
    case WhenSignal => c >= 0 && events[c] == WhenWrittenCall
    case WhenWrite(held) => c >= 0 && events[c] == WhenWrittenCall && CountedBy(run, events, i, held)
    case WhenRead(held, _, seen) =>
      c >= 0 && events[c] == WhenWrittenCall && CountedBy(run, events, i, held) && Saw(run, events, i, seen, taken)
    case WhenClosed(held) =>
      c >= 0 && events[c] == WhenWrittenCall && CountedBy(run, events, i, held) && SawNoneThere(run, events, i)
    case WhenWait(held) =>
      && c >= 0 && events[c] == WhenWrittenCall && CountedBy(run, events, i, held)
      && SawNoneThere(run, events, i) && SawClosed(run, events, i, false)
  }

  /** A call that waits holds a signal it loaded, one that does not holds none. */
  ghost predicate HoldsIn(events: seq<Event>, i: nat, held: Signal)
    requires i <= |events| && CallAt(events, i) >= 0
  {
    held.Held? <==> events[CallAt(events, i)].TakeBlocking?
  }

  ghost predicate CountedBy(run: seq<Ring>, events: seq<Event>, i: nat, held: Signal)
    requires |run| == |events| + 1 && i <= |events|
  {
    held.Held? && Counted(run, events, i, held.signals)
  }

  /** What each answer says of the call it is given to. */
  ghost predicate Answers(run: seq<Ring>, events: seq<Event>, i: nat, last: Outcome, taken: seq<Byte>)
    requires |run| == |events| + 1 && i <= |events|
  {
    var c := CallAt(events, i);
    match last
    case NoCall => c == -1
    case Took(bytes) =>
      && |bytes| <= |taken| && taken[|taken| - |bytes|..] == bytes
      && GivesAsked(run, events, i, |bytes|, taken[..|taken| - |bytes|])
    case Nothing => c >= 0 && events[c].Take? && FoundNone(run, events, i, events[c].length)
    case EndOfFile => Reads(events, i) && SawTheEnd(run, events, i)
    case Written =>
      && c >= 0 && events[c] == WhenWrittenCall
      && (SawSome(run, events, i) || SawClosed(run, events, i, true) || Signalled(run, events, i))
    case Waiting =>
      c >= 0 && events[c] == WhenWrittenCall && SawNoneThere(run, events, i) && SawClosed(run, events, i, false)
  }

  // ------------------------------------------------------------------ every state of every run

  lemma Later(run: seq<Ring>, events: seq<Event>, i: nat, r: Reader, taken: seq<Byte>)
    requires |run| == |events| + 1 && 0 < i <= |events| && !IsCall(events[i - 1])
    requires Told(run, events, i - 1, r, taken)
    ensures Told(run, events, i, r, taken)
  {
    hide Answers;
    SightsStay(run, events, i);
    if r.Ready? { AnswersLater(run, events, i, r.last, taken); }
    if r.NotifyWriter? { AnswersLater(run, events, i, Took(r.got), taken); }
    assert CallAt(events, i) == CallAt(events, i - 1);
    assert forall n: nat :: Asked(events, i - 1, n) ==> Asked(events, i, n);
    hide CallAt, GivesAsked, FoundNone, Saw, SawAgain, SawNoneThere, SawClosed, Counted, Asked;
  }

  lemma AnswersLater(run: seq<Ring>, events: seq<Event>, i: nat, last: Outcome, taken: seq<Byte>)
    requires |run| == |events| + 1 && 0 < i <= |events| && !IsCall(events[i - 1])
    requires Answers(run, events, i - 1, last, taken)
    ensures Answers(run, events, i, last, taken)
  {
    SightsStay(run, events, i);
    assert CallAt(events, i) == CallAt(events, i - 1);
    hide CallAt, GivesAsked, Reads, FoundNone, SawNoneThere, SawSome, SawClosed, SawTheEnd, Signalled;
  }

  lemma SightsStay(run: seq<Ring>, events: seq<Event>, i: nat)
    requires |run| == |events| + 1 && 0 < i <= |events| && !IsCall(events[i - 1])
    ensures forall count, taken :: GivesAsked(run, events, i - 1, count, taken) ==> GivesAsked(run, events, i, count, taken)
    ensures Reads(events, i - 1) ==> Reads(events, i)
    ensures forall n :: FoundNone(run, events, i - 1, n) ==> FoundNone(run, events, i, n)
    ensures forall seen, taken :: Saw(run, events, i - 1, seen, taken) ==> Saw(run, events, i, seen, taken)
    ensures SawNoneThere(run, events, i - 1) ==> SawNoneThere(run, events, i)
    ensures SawSome(run, events, i - 1) ==> SawSome(run, events, i)
    ensures forall closed :: SawClosed(run, events, i - 1, closed) ==> SawClosed(run, events, i, closed)
    ensures SawTheEnd(run, events, i - 1) ==> SawTheEnd(run, events, i)
    ensures forall signals :: Counted(run, events, i - 1, signals) ==> Counted(run, events, i, signals)
    ensures Signalled(run, events, i - 1) ==> Signalled(run, events, i)
    ensures forall seen, taken :: SawAgain(run, events, i - 1, seen, taken) ==> SawAgain(run, events, i, seen, taken)
  {
    assert CallAt(events, i) == CallAt(events, i - 1);
    assert forall n: nat :: Asked(events, i - 1, n) ==> Asked(events, i, n);
    assert forall j: nat :: LooksAt(run, events, i - 1, j) ==> LooksAt(run, events, i, j);
    assert forall n: nat, count, taken ::
        Fits(run, events, i - 1, n, count, taken) ==> Fits(run, events, i, n, count, taken) by { hide CallAt, LooksAt, There; }
    if Reads(events, i - 1) {
      var n: nat :| Asked(events, i - 1, n);
      assert Asked(events, i, n);
    }
    forall count, taken | GivesAsked(run, events, i - 1, count, taken) ensures GivesAsked(run, events, i, count, taken) {
      var n: nat :| Asked(events, i - 1, n) && Fits(run, events, i - 1, n, count, taken);
      assert Asked(events, i, n);
    }
    assert forall j: nat :: LooksClosed(run, events, i - 1, j) ==> LooksClosed(run, events, i, j);
    assert forall j: nat :: InCall(events, i - 1, j) ==> InCall(events, i, j);
    hide CallAt, LooksAt, LooksClosed, InCall, There, Asked, Fits;
  }

  lemma {:induction false} EveryCall(run: seq<Ring>, events: seq<Event>, i: nat)
    requires IsRun(run, events) && i < |run|
    ensures Told(run, events, i, run[i].reader, run[i].taken)
  {
    hide Told, Inv, ReaderStep, WriterStep;
    if i == 0 {
      CallStarts(run, events, 0);
    } else {
      var (s, e) := (run[i - 1], events[i - 1]);
      EveryCall(run, events, i - 1);
      EveryStateOk(run, events, i - 1);
      if IsCall(e) {
        CallStarts(run, events, i);
      } else {
        Later(run, events, i, s.reader, s.taken);
        match e
        case ReaderRuns => ReaderTold(run, events, i);
        case WriterRuns => WriterTold(run, events, i);
        case _ =>
      }
    }
  }

  lemma CallStarts(run: seq<Ring>, events: seq<Event>, i: nat)
    requires IsRun(run, events) && i < |run| && (i > 0 ==> IsCall(events[i - 1]))
    ensures Told(run, events, i, run[i].reader, run[i].taken)
  {
  }

  lemma WriterTold(run: seq<Ring>, events: seq<Event>, i: nat)
    requires |run| == |events| + 1 && 0 < i <= |events| && Inv(run[i - 1]) && run[i] == WriterStep(run[i - 1])
    requires Told(run, events, i, run[i - 1].reader, run[i - 1].taken)
    ensures Told(run, events, i, run[i].reader, run[i].taken)
  {
    WriterLeaves(run[i - 1]);
    hide WriterStep, Inv, FoundNone, Answers, Fits;
  }

  lemma ReaderTold(run: seq<Ring>, events: seq<Event>, i: nat)
    requires |run| == |events| + 1 && 0 < i <= |events| && Inv(run[i - 1])
    requires events[i - 1] == ReaderRuns && run[i] == ReaderStep(run[i - 1])
    requires Told(run, events, i, run[i - 1].reader, run[i - 1].taken)
    ensures Told(run, events, i, run[i].reader, run[i].taken)
  {
    var s := run[i - 1];
    match s.reader
    case LookWrite(_, _) => LoadsTold(run, events, i);
    case AgainWrite(_, _) => LoadsTold(run, events, i);
    case WhenWrite(_) => LoadsTold(run, events, i);
    case LookRead(_, _, _, _) => ComparesTold(run, events, i);
    case AgainRead(_, _, _, _) => ComparesTold(run, events, i);
    case WhenRead(_, _, _) => ComparesTold(run, events, i);
    case LoadRead(_) => CopiesTold(run, events, i);
    case CopyOut(_, _, _) => CopiesTold(run, events, i);
    case StoreRead(_, _) => StoresTold(run, events, i);
    case NotifyWriter(_) => StoresTold(run, events, i);
    case WhenSignal => WhensTold(run, events, i);
    case WhenClosed(_) => WhensTold(run, events, i);
    case WhenWait(_) => WhensTold(run, events, i);
    case _ => SleepsTold(run, events, i);
  }

  lemma LoadsTold(run: seq<Ring>, events: seq<Event>, i: nat)
    requires |run| == |events| + 1 && 0 < i <= |events| && Inv(run[i - 1])
    requires events[i - 1] == ReaderRuns && run[i] == ReaderStep(run[i - 1])
    requires run[i - 1].reader.LookWrite? || run[i - 1].reader.AgainWrite? || run[i - 1].reader.WhenWrite?
    requires Told(run, events, i, run[i - 1].reader, run[i - 1].taken)
    ensures Told(run, events, i, run[i].reader, run[i].taken)
  {
    hide Unread, WriterOk, PromisesOk, RingOk, FoundNone, CountedBy, Asked;
    EarlierCall(events, i);
    assert LooksAt(run, events, i, i - 1);
  }

  lemma EarlierCall(events: seq<Event>, i: nat)
    requires 0 < i <= |events| && events[i - 1] == ReaderRuns
    ensures CallAt(events, i) < i - 1
  {
  }

  lemma ComparesTold(run: seq<Ring>, events: seq<Event>, i: nat)
    requires |run| == |events| + 1 && 0 < i <= |events| && Inv(run[i - 1])
    requires events[i - 1] == ReaderRuns && run[i] == ReaderStep(run[i - 1])
    requires run[i - 1].reader.LookRead? || run[i - 1].reader.AgainRead? || run[i - 1].reader.WhenRead?
    requires Told(run, events, i, run[i - 1].reader, run[i - 1].taken)
    ensures Told(run, events, i, run[i].reader, run[i].taken)
  {
    hide Unread, WriterOk, PromisesOk, LooksAt, LooksClosed, Difference, Wrap;
    DifferenceOfWraps(run[i - 1].reader.seen, |run[i - 1].taken|);
  }

  lemma CopiesTold(run: seq<Ring>, events: seq<Event>, i: nat)
    requires |run| == |events| + 1 && 0 < i <= |events| && Inv(run[i - 1])
    requires events[i - 1] == ReaderRuns && run[i] == ReaderStep(run[i - 1])
    requires run[i - 1].reader.LoadRead? || run[i - 1].reader.CopyOut?
    requires Told(run, events, i, run[i - 1].reader, run[i - 1].taken)
    ensures Told(run, events, i, run[i].reader, run[i].taken)
  {
    hide Unread, WriterOk, PromisesOk, RingOk, GivesAsked, FoundNone, Answers, Wrap, Slot, CallAt, Asked;
  }

  lemma StoresTold(run: seq<Ring>, events: seq<Event>, i: nat)
    requires |run| == |events| + 1 && 0 < i <= |events| && Inv(run[i - 1])
    requires events[i - 1] == ReaderRuns && run[i] == ReaderStep(run[i - 1])
    requires run[i - 1].reader.StoreRead? || run[i - 1].reader.NotifyWriter?
    requires Told(run, events, i, run[i - 1].reader, run[i - 1].taken)
    ensures Told(run, events, i, run[i].reader, run[i].taken)
  {
    hide Inv, GivesAsked, FoundNone, Wrap, Slot, CallAt, Asked;
    if run[i - 1].reader.StoreRead? {
      assert run[i].taken[..|run[i - 1].taken|] == run[i - 1].taken;
    }
  }

  lemma SleepsTold(run: seq<Ring>, events: seq<Event>, i: nat)
    requires |run| == |events| + 1 && 0 < i <= |events| && Inv(run[i - 1])
    requires events[i - 1] == ReaderRuns && run[i] == ReaderStep(run[i - 1])
    requires var r := run[i - 1].reader;
      r.Ready? || r.LoadSignal? || r.LookClosed? || r.WaitSignal? || r.AsleepReader?
    requires Told(run, events, i, run[i - 1].reader, run[i - 1].taken)
    ensures Told(run, events, i, run[i].reader, run[i].taken)
  {
    hide Unread, WriterOk, PromisesOk, RingOk, ReaderOk, GivesAsked, FoundNone, Wrap, CallAt;
  }

  lemma WhensTold(run: seq<Ring>, events: seq<Event>, i: nat)
    requires |run| == |events| + 1 && 0 < i <= |events| && Inv(run[i - 1])
    requires events[i - 1] == ReaderRuns && run[i] == ReaderStep(run[i - 1])
    requires var r := run[i - 1].reader; r.WhenSignal? || r.WhenClosed? || r.WhenWait?
    requires Told(run, events, i, run[i - 1].reader, run[i - 1].taken)
    ensures Told(run, events, i, run[i].reader, run[i].taken)
  {
    hide Unread, WriterOk, PromisesOk, LooksAt, Wrap;
    EarlierCall(events, i);
    assert InCall(events, i, i - 1);
    hide CallAt, InCall;
    if run[i - 1].reader.WhenClosed? {
      assert LooksClosed(run, events, i, i - 1);
    }
  }

  // ------------------------------------------------------------------ what each answer means

  /**
   * A call that asked for up to n bytes answers with no more than n, and with n or with all there was when it looked:
   * the first bytes not taken before.
   */
  lemma TookWhatWasAsked(run: seq<Ring>, events: seq<Event>, i: nat, bytes: seq<Byte>) returns (n: nat, j: nat)
    requires IsRun(run, events) && i < |run| && run[i].reader == Ready(Took(bytes))
    ensures Asked(events, i, n) && LooksAt(run, events, i, j)
    ensures 0 < |bytes| <= n && |bytes| <= There(run[j]) && (|bytes| == n || |bytes| == There(run[j]))
    ensures run[j].taken + bytes == run[i].taken <= run[i].published
  {
    EveryCall(run, events, i);
    EveryStateOk(run, events, i);
    hide IsRun, LooksAt, Asked, Inv;
    var before := run[i].taken[..|run[i].taken| - |bytes|];
    n :| Asked(events, i, n) && Fits(run, events, i, n, |bytes|, before);
    j :| LooksAt(run, events, i, j) && |bytes| == Min(n, There(run[j])) && run[j].taken == before;
    assert run[i].taken == before + bytes;
    TakenArePublished(run[i]);
  }

  lemma TakenArePublished(s: Ring)
    requires Inv(s)
    ensures s.taken <= s.published
  {
  }

  /** Nothing is answered only to a call that does not wait, and only where a look found nothing for it. */
  lemma NothingWasThere(run: seq<Ring>, events: seq<Event>, i: nat) returns (n: nat, j: nat)
    requires IsRun(run, events) && i < |run| && run[i].reader == Ready(Nothing)
    ensures CallAt(events, i) >= 0 && events[CallAt(events, i)] == Take(n)
    ensures LooksAt(run, events, i, j) && (n == 0 || run[j].published == run[j].taken)
  {
    EveryCall(run, events, i);
    hide IsRun, LooksAt;
    n := events[CallAt(events, i)].length;
    j :| LooksAt(run, events, i, j) && Min(n, There(run[j])) == 0;
    EveryStateOk(run, events, j);
    TakenArePublished(run[j]);
  }

  /** A read of 0 is answered only where a look, made after the ring was closed, found nothing left. */
  lemma TheEndWasSeen(run: seq<Ring>, events: seq<Event>, i: nat) returns (j: nat)
    requires IsRun(run, events) && i < |run| && run[i].reader == Ready(EndOfFile)
    ensures LooksAt(run, events, i, j) && run[j].closed && There(run[j]) == 0
  {
    EveryCall(run, events, i);
    hide IsRun, LooksAt;
    j :| LooksAt(run, events, i, j) && run[j].closed && There(run[j]) == 0;
  }

  /**
   * whenWritten is answered at once only where a look found bytes or the ring closed, or a signal came since the call
   * began, and is left waiting only where a look found no bytes and another found the ring open.
   */
  lemma WrittenWasSeen(run: seq<Ring>, events: seq<Event>, i: nat)
    requires IsRun(run, events) && i < |run|
    ensures run[i].reader == Ready(Written) ==>
              SawSome(run, events, i) || SawClosed(run, events, i, true) || Signalled(run, events, i)
    ensures run[i].reader == Ready(Waiting) ==> SawNoneThere(run, events, i) && SawClosed(run, events, i, false)
    ensures run[i].reader in {Ready(Written), Ready(Waiting)} ==>
              CallAt(events, i) >= 0 && events[CallAt(events, i)] == WhenWrittenCall
  {
    EveryCall(run, events, i);
    hide IsRun, SawSome, SawClosed, Signalled, SawNoneThere, CallAt;
  }

  /** A call left waiting has its promise, which only a notify takes away, and that only after a signal. */
  lemma PromiseStands(run: seq<Ring>, events: seq<Event>, i: nat, p: Promise)
    requires IsRun(run, events) && i + 1 < |run|
    ensures run[i].reader.WhenWait? && run[i + 1].reader == Ready(Waiting) ==>
              Promise(run[i].signals, |run[i].taken|) in run[i + 1].promises
    ensures p in run[i].promises && p !in run[i + 1].promises ==> events[i] == WriterRuns && Unnotified(run[i])
  {
    EveryStateOk(run, events, i);
    hide Inv, Do, Enabled;
    PromiseMade(run[i], events[i]);
    if p in run[i].promises && p !in run[i + 1].promises {
      PromiseTaken(run[i], events[i], p);
    }
  }

  lemma PromiseMade(s: Ring, e: Event)
    requires Inv(s) && Enabled(s, e)
    ensures s.reader.WhenWait? && Do(s, e).reader == Ready(Waiting) ==> Promise(s.signals, |s.taken|) in Do(s, e).promises
  {
    if e == WriterRuns {
      WriterLeaves(s);
      hide WriterStep;
    }
    hide Unread, WriterOk, PromisesOk, Wrap;
    if s.reader.WhenWait? && e == ReaderRuns {
      WrapInjective(s.signals, s.reader.held.signals);
    }
  }

  lemma PromiseTaken(s: Ring, e: Event, p: Promise)
    requires Inv(s) && Enabled(s, e) && p in s.promises && p !in Do(s, e).promises
    ensures e == WriterRuns && Unnotified(s)
  {
    hide Unread, ReaderOk, WriterOk, PromisesOk, Wrap, Slot, PieceSlot, Difference;
  }
}
