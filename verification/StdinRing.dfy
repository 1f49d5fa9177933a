/**
 * A run's fd 0 over shared memory, as its two threads run it: every atomic load, store, wait and notify of the
 * writer's put and close and of the reader's take, takeBlocking and whenWritten is one step, and so is every byte
 * copied in or out. A run is any interleaving of those steps with calls of either end.
 *
 * The state holds the ring's own words and bytes, and beside them a history the code does not have: the bytes
 * published, taken and accepted, and the number of signals ever made. A thread's position holds the words it loaded.
 */
module StdinRing {
  import opened Wrappers
  import opened Words

  type Byte = b: int | 0 <= b < 256

  const MAX_CAPACITY := 0x4000_0000

  /** What a reader's call answered. `Took` has the bytes copied into the caller's buffer. */
  datatype Outcome = NoCall | Took(bytes: seq<Byte>) | Nothing | EndOfFile | Written | Waiting

  /**
   * A look at SIGNAL taken before looking for bytes: the word loaded, and the number of signals it stands for.
   * `NoSignal` for take, which never waits.
   */
  datatype Signal = NoSignal | Held(word: nat, signals: nat)

  datatype Reader =
    | Ready(last: Outcome)
    | LoadSignal(length: nat)
    | LookWrite(held: Signal, length: nat)
    | LookRead(held: Signal, length: nat, write: nat, seen: nat)
    | LookClosed(held: Signal, length: nat)
    | AgainWrite(held: Signal, length: nat)
    | AgainRead(held: Signal, length: nat, write: nat, seen: nat)
    | LoadRead(count: nat)
    | CopyOut(read: nat, count: nat, got: seq<Byte>)
    | StoreRead(read: nat, got: seq<Byte>)
    | NotifyWriter(got: seq<Byte>)
    | WaitSignal(held: Signal, length: nat)
    | AsleepReader(held: Signal, length: nat)
    | WhenSignal
    | WhenWrite(held: Signal)
    | WhenRead(held: Signal, write: nat, seen: nat)
    | WhenClosed(held: Signal)
    | WhenWait(held: Signal)

  datatype Writer =
    | Free
    | CheckClosed(bytes: seq<Byte>)
    | LoadReadIndex(bytes: seq<Byte>, offset: nat)
    | LoadWriteIndex(bytes: seq<Byte>, offset: nat, readRaw: nat, taken: nat)
    | WaitRead(bytes: seq<Byte>, offset: nat, readRaw: nat, taken: nat)
    | AsleepWriter(bytes: seq<Byte>, offset: nat, taken: nat)
    | CopyIn(bytes: seq<Byte>, offset: nat, written: nat, count: nat, done: nat)
    | StoreWrite(bytes: seq<Byte>, offset: nat, written: nat, count: nat)
    | AddSignal(bytes: seq<Byte>, offset: nat)
    | NotifyReader(bytes: seq<Byte>, offset: nat)
    | Closing
    | CloseSignal
    | CloseNotify

  /** A whenWritten promise not yet resolved: the signals made and the bytes taken when it began to wait. */
  datatype Promise = Promise(signals: nat, taken: nat)

  datatype Ring = Ring(
    capacity: nat,
    writeWord: nat,
    readWord: nat,
    closed: bool,
    signalWord: nat,
    data: seq<Byte>,
    reader: Reader,
    writer: Writer,
    promises: set<Promise>,
    // history
    published: seq<Byte>,
    taken: seq<Byte>,
    accepted: seq<Byte>,
    signals: nat)

  /** createStdinRing: a capacity is a power of two up to 2^30. */
  predicate CapacityOk(capacity: int) {
    0 < capacity <= MAX_CAPACITY && PowerOfTwo(capacity)
  }

  /** A new ring, or none where the capacity is refused. */
  function Create(capacity: int): Option<Ring> {
    if CapacityOk(capacity)
    then Some(Ring(capacity, 0, 0, false, 0, seq(capacity, _ => 0), Ready(NoCall), Free, {}, [], [], [], 0))
    else None
  }

  function Min(a: nat, b: nat): nat {
    if a < b then a else b
  }

  // ------------------------------------------------------------------ the reader's steps

  function ReaderStep(s: Ring): Ring
    requires s.capacity > 0 && |s.data| == s.capacity
  {
    match s.reader
    case Ready(_) => s
    case LoadSignal(length) => s.(reader := LookWrite(Held(s.signalWord, s.signals), length))
    case LookWrite(held, length) => s.(reader := LookRead(held, length, s.writeWord, |s.published|))
    case LookRead(held, length, write, _) =>
      var count := Min(length, Difference(write, s.readWord));
      s.(reader := if count == 0 then LookClosed(held, length) else LoadRead(count))
    case LookClosed(held, length) =>
      s.(reader := if s.closed then AgainWrite(held, length) else Empty(held, length))
    case AgainWrite(held, length) => s.(reader := AgainRead(held, length, s.writeWord, |s.published|))
    case AgainRead(held, length, write, _) =>
      s.(reader := if Difference(write, s.readWord) == 0 then Ready(EndOfFile) else Empty(held, length))
    case LoadRead(count) => s.(reader := CopyOut(s.readWord, count, []))
    case CopyOut(read, count, got) =>
      if |got| < count then s.(reader := CopyOut(read, count, got + [s.data[Slot(read + |got|, s.capacity)]]))
      else s.(reader := StoreRead(read, got))
    case StoreRead(read, got) =>
      s.(readWord := Wrap(read + |got|), taken := s.taken + got, reader := NotifyWriter(got))
    case NotifyWriter(got) => WakeWriter(s).(reader := Ready(Took(got)))
    case WaitSignal(held, length) =>
      s.(reader := if held.Held? && held.word == s.signalWord then AsleepReader(held, length) else LoadSignal(length))
    case AsleepReader(_, _) => s
    case WhenSignal => s.(reader := WhenWrite(Held(s.signalWord, s.signals)))
    case WhenWrite(held) => s.(reader := WhenRead(held, s.writeWord, |s.published|))
    case WhenRead(held, write, _) =>
      s.(reader := if Difference(write, s.readWord) > 0 then Ready(Written) else WhenClosed(held))
    case WhenClosed(held) => s.(reader := if s.closed then Ready(Written) else WhenWait(held))
    case WhenWait(held) =>
      if held.Held? && held.word == s.signalWord
      then s.(reader := Ready(Waiting), promises := s.promises + {Promise(held.signals, |s.taken|)})
      else s.(reader := Ready(Written))
  }

  /** take found nothing: a call that holds a signal waits on it, one that does not answers null. */
  function Empty(held: Signal, length: nat): Reader {
    if held.Held? then WaitSignal(held, length) else Ready(Nothing)
  }

  function WakeWriter(s: Ring): Ring {
    if s.writer.AsleepWriter? then s.(writer := LoadReadIndex(s.writer.bytes, s.writer.offset)) else s
  }

  // ------------------------------------------------------------------ the writer's steps

  function WriterStep(s: Ring): Ring
    requires s.capacity > 0 && |s.data| == s.capacity
  {
    match s.writer
    case Free => s
    case CheckClosed(bytes) =>
      if s.closed then s.(writer := Free)
      else s.(writer := Put(bytes, 0), accepted := s.accepted + bytes)
    case LoadReadIndex(bytes, offset) => s.(writer := LoadWriteIndex(bytes, offset, s.readWord, |s.taken|))
    case LoadWriteIndex(bytes, offset, readRaw, taken) =>
      var room := s.capacity - Difference(s.writeWord, readRaw);
      if room == 0 then s.(writer := WaitRead(bytes, offset, readRaw, taken))
      else
        var count := if room < |bytes| - offset then room else |bytes| - offset;
        if count < 0 then s else s.(writer := CopyIn(bytes, offset, s.writeWord, count, 0))
    case WaitRead(bytes, offset, readRaw, taken) =>
      s.(writer := if readRaw == s.readWord then AsleepWriter(bytes, offset, taken) else LoadReadIndex(bytes, offset))
    case AsleepWriter(_, _, _) => s
    case CopyIn(bytes, offset, written, count, done) =>
      if done < count && offset + done < |bytes|
      then s.(data := s.data[PieceSlot(written, done, s.capacity) := bytes[offset + done]],
              writer := CopyIn(bytes, offset, written, count, done + 1))
      else s.(writer := StoreWrite(bytes, offset, written, count))
    case StoreWrite(bytes, offset, written, count) =>
      if offset + count <= |bytes|
      then s.(writeWord := Wrap(written + count), published := s.published + bytes[offset..offset + count],
              writer := AddSignal(bytes, offset + count))
      else s
    case AddSignal(bytes, offset) =>
      s.(signalWord := Wrap(s.signalWord + 1), signals := s.signals + 1, writer := NotifyReader(bytes, offset))
    case NotifyReader(bytes, offset) => WakeReader(s).(writer := Put(bytes, offset))
    case Closing => s.(closed := true, writer := CloseSignal)
    case CloseSignal => s.(signalWord := Wrap(s.signalWord + 1), signals := s.signals + 1, writer := CloseNotify)
    case CloseNotify => WakeReader(s).(writer := Free)
  }

  /** Where put's loop goes on with bytes from an offset. */
  function Put(bytes: seq<Byte>, offset: nat): Writer {
    if offset < |bytes| then LoadReadIndex(bytes, offset) else Free
  }

  /** The place of a byte in the data area. */
  function Slot(index: nat, capacity: nat): (slot: nat)
    requires capacity > 0
    ensures slot < capacity
  {
    index % capacity
  }

  /** The slot of the k-th byte of a chunk: the first piece ends at the data area's end, the second begins at its start. */
  function PieceSlot(written: nat, k: nat, capacity: nat): (slot: nat)
    requires capacity > 0
    ensures slot < capacity
  {
    var at := written % capacity;
    if k < capacity - at then at + k else (k - (capacity - at)) % capacity
  }

  /** notify on SIGNAL: the reader asleep on it goes round its loop, and every promise waiting on it resolves. */
  function WakeReader(s: Ring): Ring {
    s.(reader := if s.reader.AsleepReader? then LoadSignal(s.reader.length) else s.reader, promises := {})
  }

  // ------------------------------------------------------------------ runs

  /** A step of either thread, or a call: one at a time at each end, and close once, after every write resolved. */
  datatype Event =
    | ReaderRuns | WriterRuns
    | Take(length: nat) | TakeBlocking(length: nat) | WhenWrittenCall
    | Write(bytes: seq<Byte>) | Close

  predicate Enabled(s: Ring, e: Event) {
    match e
    case ReaderRuns => true
    case WriterRuns => true
    case Take(_) => s.reader.Ready?
    case TakeBlocking(length) => s.reader.Ready? && length > 0
    case WhenWrittenCall => s.reader.Ready?
    case Write(_) => s.writer.Free?
    case Close => s.writer.Free? && !s.closed
  }

  function Do(s: Ring, e: Event): Ring
    requires s.capacity > 0 && |s.data| == s.capacity && Enabled(s, e)
  {
    match e
    case ReaderRuns => ReaderStep(s)
    case WriterRuns => WriterStep(s)
    case Take(length) => s.(reader := LookWrite(NoSignal, length))
    case TakeBlocking(length) => s.(reader := LoadSignal(length))
    case WhenWrittenCall => s.(reader := WhenSignal)
    case Write(bytes) => s.(writer := CheckClosed(bytes))
    case Close => s.(writer := Closing)
  }

  /** Every state of a run follows from the one before by an enabled event. */
  ghost predicate IsRun(run: seq<Ring>, events: seq<Event>) {
    && |run| == |events| + 1
    && (exists capacity: int :: Create(capacity) == Some(run[0]))
    && forall i :: 0 <= i < |events| ==>
         && run[i].capacity > 0 && |run[i].data| == run[i].capacity
         && Enabled(run[i], events[i]) && run[i + 1] == Do(run[i], events[i])
  }
}
