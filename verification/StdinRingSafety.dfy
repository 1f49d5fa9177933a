/** What every reachable state of the stdin ring satisfies: first in first out, no lost wakeup, no deadlock. */
module StdinRingSafety {
  import opened Wrappers
  import opened Arithmetic
  import opened Words
  import opened StdinRing

  ghost predicate RingOk(s: Ring) {
    && CapacityOk(s.capacity)
    && |s.data| == s.capacity
    && s.writeWord == Wrap(|s.published|)
    && s.readWord == Wrap(|s.taken|)
    && s.signalWord == Wrap(s.signals)
    && s.taken <= s.published
    && |s.published| <= |s.taken| + s.capacity
  }

  /** No byte published and not yet taken has been written over. */
  ghost predicate Unread(s: Ring)
    requires RingOk(s)
  {
    forall i :: |s.taken| <= i < |s.published| ==> s.data[Slot(i, s.capacity)] == s.published[i]
  }

  /** A change is in the ring whose signal has not been made yet. */
  ghost predicate Unsignalled(s: Ring) {
    s.writer.AddSignal? || s.writer.CloseSignal?
  }

  /** A signal has been made whose notify has not. */
  ghost predicate Unnotified(s: Ring) {
    s.writer.NotifyReader? || s.writer.CloseNotify?
  }

  ghost function Count(b: bool): nat {
    if b then 1 else 0
  }

  /** No ABA: the signals made since a held one fit in the ring, so the word tells whether there were any. */
  ghost predicate HeldOk(s: Ring, held: Signal) {
    held.Held? ==>
      && held.word == Wrap(held.signals)
      && held.signals <= s.signals
      && s.signals + Count(Unsignalled(s)) + |s.taken| <= held.signals + 1 + |s.published| + Count(s.closed)
  }

  /** Whatever was published past what a look saw has been signalled since, or is about to be. */
  ghost predicate SignalsSince(s: Ring, held: Signal, seen: nat) {
    held.Held? && |s.published| > seen ==> s.signals > held.signals || s.writer.AddSignal?
  }

  /** A call about to wait found nothing: bytes or an end there now have been signalled since, or are about to be. */
  ghost predicate FoundNothing(s: Ring, signals: nat, taken: nat) {
    |s.published| > taken || s.closed ==> s.signals > signals || Unsignalled(s)
  }

  ghost predicate ReaderOk(s: Ring)
    requires RingOk(s)
  {
    match s.reader
    case Ready(last) =>
      && (last.EndOfFile? ==> s.closed && s.taken == s.accepted)
      && (last.Took? ==> |last.bytes| <= |s.taken| && s.taken[|s.taken| - |last.bytes|..] == last.bytes)
    case LoadSignal(length) => length > 0
    case LookWrite(held, length) => HeldOk(s, held) && (held.Held? ==> length > 0)
    case LookRead(held, length, write, seen) =>
      && HeldOk(s, held) && (held.Held? ==> length > 0)
      && write == Wrap(seen) && |s.taken| <= seen <= |s.published| && SignalsSince(s, held, seen)
    case LookClosed(held, length) =>
      HeldOk(s, held) && (held.Held? ==> length > 0) && SignalsSince(s, held, |s.taken|)
    case AgainWrite(held, length) =>
      HeldOk(s, held) && (held.Held? ==> length > 0) && SignalsSince(s, held, |s.taken|) && s.closed
    case AgainRead(held, length, write, seen) =>
      && HeldOk(s, held) && (held.Held? ==> length > 0) && SignalsSince(s, held, |s.taken|) && s.closed
      && write == Wrap(seen) && seen == |s.published|
    case LoadRead(count) => 0 < count <= |s.published| - |s.taken|
    case CopyOut(read, count, got) =>
      && read == s.readWord && |got| <= count && 0 < count <= |s.published| - |s.taken|
      && got == s.published[|s.taken|..|s.taken| + |got|]
    case StoreRead(read, got) =>
      && read == s.readWord && 0 < |got| <= |s.published| - |s.taken|
      && got == s.published[|s.taken|..|s.taken| + |got|]
    case NotifyWriter(got) => |got| <= |s.taken| && s.taken[|s.taken| - |got|..] == got
    case WaitSignal(held, length) =>
      held.Held? && length > 0 && HeldOk(s, held) && FoundNothing(s, held.signals, |s.taken|)
    case AsleepReader(held, length) =>
      && held.Held? && length > 0 && FoundNothing(s, held.signals, |s.taken|)
      && (s.signals == held.signals || Unnotified(s))
    case WhenSignal => true
    case WhenWrite(held) => held.Held? && HeldOk(s, held)
    case WhenRead(held, write, seen) =>
      && held.Held? && HeldOk(s, held)
      && write == Wrap(seen) && |s.taken| <= seen <= |s.published| && SignalsSince(s, held, seen)
    case WhenClosed(held) => held.Held? && HeldOk(s, held) && SignalsSince(s, held, |s.taken|)
    case WhenWait(held) => held.Held? && HeldOk(s, held) && FoundNothing(s, held.signals, |s.taken|)
  }

  ghost predicate PromisesOk(s: Ring) {
    forall p :: p in s.promises ==>
      FoundNothing(s, p.signals, p.taken) && (s.signals == p.signals || Unnotified(s))
  }

  /** In the middle of a write: the bytes from an offset on are still to publish. */
  ghost predicate Putting(s: Ring, bytes: seq<Byte>, offset: nat) {
    offset <= |bytes| && s.accepted == s.published + bytes[offset..] && !s.closed
  }

  /** The first bytes of a chunk are in their slots, past every unread byte. */
  ghost predicate Copied(s: Ring, bytes: seq<Byte>, offset: nat, written: nat, count: nat, done: nat)
    requires RingOk(s)
  {
    && Putting(s, bytes, offset)
    && written == s.writeWord
    && 0 < count && offset + count <= |bytes|
    && done <= count
    && |s.published| + count <= |s.taken| + s.capacity
    && forall i :: |s.published| <= i < |s.published| + done ==>
         s.data[Slot(i, s.capacity)] == bytes[offset + i - |s.published|]
  }

  ghost predicate WriterOk(s: Ring)
    requires RingOk(s)
  {
    match s.writer
    case Free => s.accepted == s.published
    case CheckClosed(bytes) => s.accepted == s.published
    case LoadReadIndex(bytes, offset) => offset < |bytes| && Putting(s, bytes, offset)
    case LoadWriteIndex(bytes, offset, readRaw, taken) =>
      && offset < |bytes| && Putting(s, bytes, offset)
      && readRaw == Wrap(taken) && taken <= |s.taken| && |s.published| <= taken + s.capacity
    case WaitRead(bytes, offset, readRaw, taken) =>
      && offset < |bytes| && Putting(s, bytes, offset)
      && readRaw == Wrap(taken) && taken <= |s.taken| && |s.published| == taken + s.capacity
    case AsleepWriter(bytes, offset, taken) =>
      && offset < |bytes| && Putting(s, bytes, offset)
      && taken <= |s.taken| && |s.published| == taken + s.capacity
      && (|s.taken| == taken || s.reader.NotifyWriter?)
    case CopyIn(bytes, offset, written, count, done) => Copied(s, bytes, offset, written, count, done)
    case StoreWrite(bytes, offset, written, count) => Copied(s, bytes, offset, written, count, count)
    case AddSignal(bytes, offset) => Putting(s, bytes, offset)
    case NotifyReader(bytes, offset) => Putting(s, bytes, offset)
    case Closing => s.accepted == s.published && !s.closed
    case CloseSignal => s.accepted == s.published && s.closed
    case CloseNotify => s.accepted == s.published && s.closed
  }

  ghost predicate Inv(s: Ring) {
    RingOk(s) && Unread(s) && ReaderOk(s) && WriterOk(s) && PromisesOk(s)
  }

  lemma CreateOk(capacity: int)
    ensures Create(capacity).Some? <==> CapacityOk(capacity)
    ensures Create(capacity).Some? ==> Inv(Create(capacity).value)
  {
  }

  // ------------------------------------------------------------------ the reader's steps keep it

  /** A step that only moves the reader on keeps everything but the reader's own claim. */
  lemma ReaderMoves(s: Ring, t: Ring)
    requires Inv(s) && !s.reader.NotifyWriter? && t == s.(reader := t.reader)
    requires ReaderOk(t)
    ensures Inv(t)
  {
    hide Slot, Wrap;
  }

  lemma LookOk(s: Ring)
    requires Inv(s) && (s.reader.LookRead? || s.reader.AgainRead? || s.reader.WhenRead?)
    ensures Inv(ReaderStep(s))
  {
    hide Unread, WriterOk, PromisesOk, Wrap, Difference;
    DifferenceOfWraps(s.reader.seen, |s.taken|);
    if s.reader.AgainRead? {
      ClosedMeansDone(s);
    }
    ReaderMoves(s, ReaderStep(s));
  }

  /** Once closed, everything accepted has been published. */
  lemma ClosedMeansDone(s: Ring)
    requires Inv(s) && s.closed
    ensures s.accepted == s.published
  {
    hide Unread, PromisesOk, ReaderOk;
  }

  lemma WaitSignalOk(s: Ring)
    requires Inv(s) && s.reader.WaitSignal?
    ensures Inv(ReaderStep(s))
  {
    hide Unread, WriterOk, PromisesOk, Wrap;
    WrapInjective(s.signals, s.reader.held.signals);
    ReaderMoves(s, ReaderStep(s));
  }

  lemma WhenWaitOk(s: Ring)
    requires Inv(s) && s.reader.WhenWait?
    ensures Inv(ReaderStep(s))
  {
    hide Unread, WriterOk, PromisesOk, Wrap;
    var held, t := s.reader.held, ReaderStep(s);
    WrapInjective(s.signals, held.signals);
    ReaderMoves(s, s.(reader := t.reader));
    if t.reader == Ready(Waiting) {
      AddPromise(s.(reader := t.reader), Promise(held.signals, |s.taken|));
    }
  }

  lemma AddPromise(s: Ring, p: Promise)
    requires Inv(s) && FoundNothing(s, p.signals, p.taken) && s.signals == p.signals
    ensures Inv(s.(promises := s.promises + {p}))
  {
    hide Slot, Wrap, ReaderOk, WriterOk, Unread;
    var t := s.(promises := s.promises + {p});
    SameButPromises(s, t);
  }

  lemma SameButPromises(s: Ring, t: Ring)
    requires RingOk(s) && Unread(s) && ReaderOk(s) && WriterOk(s) && t == s.(promises := t.promises)
    ensures RingOk(t) && Unread(t) && ReaderOk(t) && WriterOk(t)
  {
    hide Slot, Wrap, ReaderOk, WriterOk;
    SameWriter(s, t);
    SameReader(s, t);
  }

  lemma SameWriter(s: Ring, t: Ring)
    requires RingOk(s) && RingOk(t) && WriterOk(s) && t == s.(promises := t.promises)
    ensures WriterOk(t)
  {
    hide Slot, Wrap;
  }

  /** The reader's claim is about the history and about what the writer still owes it. */
  lemma SameReader(s: Ring, t: Ring)
    requires RingOk(s) && RingOk(t) && ReaderOk(s)
    requires t.reader == s.reader && t.readWord == s.readWord && t.closed == s.closed && t.signals == s.signals
    requires t.published == s.published && t.taken == s.taken && t.accepted == s.accepted
    requires t.writer.AddSignal? == s.writer.AddSignal? && Unsignalled(t) == Unsignalled(s)
    requires s.reader.AsleepReader? ==> Unnotified(t) == Unnotified(s)
    ensures ReaderOk(t)
  {
    hide Slot, Wrap;
  }

  lemma CopyOutOk(s: Ring)
    requires Inv(s) && s.reader.CopyOut?
    ensures Inv(ReaderStep(s))
  {
    hide WriterOk, PromisesOk, Wrap;
    var got, t := s.reader.got, ReaderStep(s);
    if |got| < s.reader.count {
      SlotOfWord(|s.taken|, |got|, s.capacity);
      assert t.reader.got == s.published[|s.taken|..|s.taken| + |got| + 1];
    }
    ReaderMoves(s, t);
  }

  lemma StoreReadOk(s: Ring)
    requires Inv(s) && s.reader.StoreRead?
    ensures Inv(ReaderStep(s))
  {
    hide Slot, Wrap;
    var got, t := s.reader.got, ReaderStep(s);
    WrapAdds(|s.taken|, |got|);
    assert t.taken == s.published[..|t.taken|];
    assert t.taken[|t.taken| - |got|..] == got;
  }

  lemma NotifyWriterOk(s: Ring)
    requires Inv(s) && s.reader.NotifyWriter?
    ensures Inv(ReaderStep(s))
  {
    hide Slot, Wrap, Unread;
    assert Unread(ReaderStep(s)) by { UnreadSame(s, ReaderStep(s)); }
  }

  lemma UnreadSame(s: Ring, t: Ring)
    requires RingOk(s) && RingOk(t) && Unread(s)
    requires t.published == s.published && |s.taken| <= |t.taken| && t.data == s.data && t.capacity == s.capacity
    ensures Unread(t)
  {
    hide Slot, Wrap;
  }

  lemma OtherReaderStepOk(s: Ring)
    requires Inv(s)
    requires !s.reader.LookRead? && !s.reader.AgainRead? && !s.reader.WhenRead? && !s.reader.CopyOut?
    requires !s.reader.StoreRead? && !s.reader.WaitSignal? && !s.reader.WhenWait? && !s.reader.NotifyWriter?
    ensures Inv(ReaderStep(s))
  {
    hide Unread, WriterOk, PromisesOk, Wrap;
    var t := ReaderStep(s);
    ReaderMoves(s, t);
  }

  lemma ReaderStepOk(s: Ring)
    requires Inv(s)
    ensures Inv(ReaderStep(s))
  {
    hide Inv, ReaderStep;
    match s.reader
    case LookRead(_, _, _, _) => LookOk(s);
    case AgainRead(_, _, _, _) => LookOk(s);
    case WhenRead(_, _, _) => LookOk(s);
    case CopyOut(_, _, _) => CopyOutOk(s);
    case StoreRead(_, _) => StoreReadOk(s);
    case WaitSignal(_, _) => WaitSignalOk(s);
    case WhenWait(_) => WhenWaitOk(s);
    case NotifyWriter(_) => NotifyWriterOk(s);
    case _ => OtherReaderStepOk(s);
  }

  // ------------------------------------------------------------------ the writer's steps keep it

  /**
   * What every step of the writer but a notify does to the reader: bytes appear or the ring closes only with a signal
   * still to make, a signal is made only with a notify still to make, and no more signals are made than changes.
   */
  ghost predicate Progress(s: Ring, t: Ring) {
    && t.capacity == s.capacity && t.reader == s.reader && t.promises == s.promises
    && t.taken == s.taken && t.readWord == s.readWord
    && s.published <= t.published && s.signals <= t.signals && (s.closed ==> t.closed)
    && t.signals + Count(Unsignalled(t)) + |s.published| + Count(s.closed)
       <= s.signals + Count(Unsignalled(s)) + |t.published| + Count(t.closed)
    && (|t.published| > |s.published| ==> t.writer.AddSignal?)
    && (t.closed && !s.closed ==> t.writer.CloseSignal?)
    && (Unsignalled(s) ==> t.signals > s.signals)
    && (t.signals > s.signals ==> Unnotified(t))
    && !Unnotified(s)
    && (s.closed ==> t.published == s.published && t.accepted == s.accepted)
  }

  lemma ReaderKept(s: Ring, t: Ring)
    requires RingOk(s) && RingOk(t) && ReaderOk(s) && Progress(s, t)
    ensures ReaderOk(t)
  {
    hide Slot, Wrap;
  }

  lemma PromisesKept(s: Ring, t: Ring)
    requires PromisesOk(s) && Progress(s, t)
    ensures PromisesOk(t)
  {
  }

  lemma WriterGoesOn(s: Ring, t: Ring)
    requires Inv(s) && Progress(s, t) && RingOk(t) && Unread(t) && WriterOk(t)
    ensures Inv(t)
  {
    hide Slot, Wrap, ReaderOk, WriterOk, Unread, PromisesOk, Progress, RingOk;
    ReaderKept(s, t);
    PromisesKept(s, t);
  }

  /** A step that only moves the writer on, between positions that owe the reader nothing. */
  lemma WriterMoves(s: Ring, t: Ring)
    requires Inv(s) && t == s.(writer := t.writer)
    requires !Unsignalled(s) && !Unnotified(s) && !Unsignalled(t) && !Unnotified(t)
    requires WriterOk(t)
    ensures Inv(t)
  {
    hide Slot, Wrap, ReaderOk, PromisesOk;
    WriterGoesOn(s, t);
  }

  lemma CheckClosedOk(s: Ring)
    requires Inv(s) && s.writer.CheckClosed?
    ensures Inv(WriterStep(s))
  {
    hide Slot, Wrap, ReaderOk, PromisesOk;
    var bytes := s.writer.bytes;
    assert bytes[0..] == bytes;
    assert s.accepted + [] == s.accepted;
    WriterGoesOn(s, WriterStep(s));
  }

  lemma LoadWriteIndexOk(s: Ring)
    requires Inv(s) && s.writer.LoadWriteIndex?
    ensures Inv(WriterStep(s))
  {
    hide Unread, ReaderOk, PromisesOk, Wrap, Difference, Slot;
    DifferenceOfWraps(|s.published|, s.writer.taken);
    WriterMoves(s, WriterStep(s));
  }

  lemma WaitReadOk(s: Ring)
    requires Inv(s) && s.writer.WaitRead?
    ensures Inv(WriterStep(s))
  {
    hide Unread, ReaderOk, PromisesOk, Wrap, Slot;
    WrapInjective(|s.taken|, s.writer.taken);
    WriterMoves(s, WriterStep(s));
  }

  /** The two pieces of a copy fill consecutive slots. */
  lemma PieceSlots(published: nat, done: nat, capacity: nat)
    requires CapacityOk(capacity) && done < capacity
    ensures PieceSlot(Wrap(published), done, capacity) == Slot(published + done, capacity)
  {
    SlotOfWord(published, done, capacity);
    Pieces(Wrap(published), done, capacity);
  }

  lemma Pieces(written: nat, done: nat, capacity: nat)
    requires done < capacity
    ensures PieceSlot(written, done, capacity) == (written + done) % capacity
  {
    var at, q := written % capacity, written / capacity;
    hide PieceSlot;
    Distribute(q, 1, capacity);
    assert written == q * capacity + at;
    PieceSlotIs(written, done, capacity);
    if done < capacity - at {
      DivideRows(written + done, q, capacity, at + done);
    } else {
      DivideRows(written + done, q + 1, capacity, done - (capacity - at));
    }
  }

  lemma PieceSlotIs(written: nat, done: nat, capacity: nat)
    requires done < capacity
    ensures PieceSlot(written, done, capacity)
         == var at := written % capacity; if done < capacity - at then at + done else done - (capacity - at)
  {
    var at := written % capacity;
    if done >= capacity - at {
      DivideRows(done - (capacity - at), 0, capacity, done - (capacity - at));
    }
  }

  lemma CopyInOk(s: Ring)
    requires Inv(s) && s.writer.CopyIn?
    ensures Inv(WriterStep(s))
  {
    hide Wrap, Slot, PieceSlot, PromisesOk;
    var t, done := WriterStep(s), s.writer.done;
    if done < s.writer.count {
      var slot := PieceSlot(s.writer.written, done, s.capacity);
      PieceSlots(|s.published|, done, s.capacity);
      forall i | |s.taken| <= i < |s.published| + done
        ensures Slot(i, s.capacity) != slot
      {
        SlotsApart(i, |s.published| + done, s.capacity);
      }
      CopyInKeeps(s, t, slot);
    } else {
      WriterMoves(s, t);
    }
  }

  lemma SlotsApart(i: nat, j: nat, capacity: nat)
    requires i < j < i + capacity
    ensures Slot(i, capacity) != Slot(j, capacity)
  {
    RemaindersDiffer(i, j, capacity);
  }

  /** A byte put past every unread and every copied byte changes none of them. */
  lemma CopyInKeeps(s: Ring, t: Ring, slot: nat)
    requires Inv(s) && s.writer.CopyIn? && s.writer.done < s.writer.count && slot < s.capacity
    requires s.writer.offset + s.writer.done < |s.writer.bytes|
    requires slot == Slot(|s.published| + s.writer.done, s.capacity)
    requires forall i :: |s.taken| <= i < |s.published| + s.writer.done ==> Slot(i, s.capacity) != slot
    requires t == s.(data := s.data[slot := s.writer.bytes[s.writer.offset + s.writer.done]],
                     writer := s.writer.(done := s.writer.done + 1))
    ensures Inv(t)
  {
    hide Wrap, Slot, ReaderOk, PromisesOk;
    WriterGoesOn(s, t);
  }

  lemma StoreWriteOk(s: Ring)
    requires Inv(s) && s.writer.StoreWrite?
    ensures Inv(WriterStep(s))
  {
    hide Slot, Wrap, ReaderOk, PromisesOk;
    var w, t := s.writer, WriterStep(s);
    WrapAdds(|s.published|, w.count);
    var rest := w.bytes[w.offset..];
    assert rest == w.bytes[w.offset..w.offset + w.count] + w.bytes[w.offset + w.count..];
    assert t.published + w.bytes[w.offset + w.count..] == t.accepted;
    assert forall i :: 0 <= i < |s.published| ==> t.published[i] == s.published[i];
    WriterGoesOn(s, t);
  }

  lemma SignalOk(s: Ring)
    requires Inv(s) && Unsignalled(s)
    ensures Inv(WriterStep(s))
  {
    hide Slot, Wrap, ReaderOk, PromisesOk;
    WrapAdds(s.signals, 1);
    WriterGoesOn(s, WriterStep(s));
  }

  lemma ClosingOk(s: Ring)
    requires Inv(s) && s.writer.Closing?
    ensures Inv(WriterStep(s))
  {
    hide Slot, Wrap, ReaderOk, PromisesOk;
    WriterGoesOn(s, WriterStep(s));
  }

  lemma NotifyReaderOk(s: Ring)
    requires Inv(s) && Unnotified(s)
    ensures Inv(WriterStep(s))
  {
    hide Slot, Wrap;
    var t := WriterStep(s);
    assert s.published + [] == s.published;
    assert WriterOk(t) by { hide ReaderOk, PromisesOk; }
    assert ReaderOk(t) by { hide WriterOk, PromisesOk, Unread; Notified(s, t); }
  }

  lemma Notified(s: Ring, t: Ring)
    requires RingOk(s) && RingOk(t) && ReaderOk(s) && Unnotified(s)
    requires t == WakeReader(s).(writer := t.writer) && !Unsignalled(t)
    ensures ReaderOk(t)
  {
    hide Slot, Wrap;
    if !s.reader.AsleepReader? {
      hide ReaderOk;
      SameReader(s, t);
    }
  }

  lemma WriterStepOk(s: Ring)
    requires Inv(s)
    ensures Inv(WriterStep(s))
  {
    hide Slot, Wrap, ReaderOk, PromisesOk, Unread;
    match s.writer
    case Free =>
    case CheckClosed(_) => CheckClosedOk(s);
    case LoadReadIndex(_, _) => WriterMoves(s, WriterStep(s));
    case LoadWriteIndex(_, _, _, _) => LoadWriteIndexOk(s);
    case WaitRead(_, _, _, _) => WaitReadOk(s);
    case AsleepWriter(_, _, _) =>
    case CopyIn(_, _, _, _, _) => CopyInOk(s);
    case StoreWrite(_, _, _, _) => StoreWriteOk(s);
    case Closing => ClosingOk(s);
    case AddSignal(_, _) => SignalOk(s);
    case CloseSignal => SignalOk(s);
    case _ => NotifyReaderOk(s);
  }

  lemma DoOk(s: Ring, e: Event)
    requires Inv(s) && Enabled(s, e)
    ensures Inv(Do(s, e))
  {
    hide ReaderStep, WriterStep, Slot, Wrap, Unread, PromisesOk;
    var t := Do(s, e);
    match e
    case ReaderRuns => ReaderStepOk(s);
    case WriterRuns => WriterStepOk(s);
    case Write(_) => WriterMoves(s, t);
    case Close => WriterMoves(s, t);
    case _ => ReaderMoves(s, t);
  }
}
