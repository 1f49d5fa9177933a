/**
 * A flow-controlled response: the page's end, which holds the server's bytes back until a pull pays for a chunk of
 * them, and the service worker's end, which hands each chunk to a reader. The two ends talk over two channels that
 * keep order. Pulls, cancels, aborts and failures come at any point of a run.
 */
module FlowStream {

  type Byte = b: int | 0 <= b < 256

  const MAX_CHUNK_BYTES := 65536
  const QUEUED_CHUNKS := 4

  /** What the page posts to the worker. */
  datatype Msg = Start | Chunk(bytes: seq<Byte>) | End | Error

  /** What the worker posts to the page. */
  datatype Order = Pull | Cancel

  // ------------------------------------------------------------------ the page's end

  datatype Page = Page(queue: seq<seq<Byte>>, credits: nat, upstreamEnded: bool, finished: bool, paused: bool)

  /** What a step of the page leaves it as, and what it posts. */
  datatype Posted = Posted(page: Page, msgs: seq<Msg>)

  function Chunks(pieces: seq<seq<Byte>>): (msgs: seq<Msg>)
    ensures |msgs| == |pieces| && forall i :: 0 <= i < |pieces| ==> msgs[i] == Chunk(pieces[i])
  {
    seq(|pieces|, i requires 0 <= i < |pieces| => Chunk(pieces[i]))
  }

  function Min(a: nat, b: nat): nat {
    if a < b then a else b
  }

  /** A flush: a chunk goes out for every credit, then the end where all went out, else the server is paced. */
  function Flushed(p: Page): Posted {
    if p.finished then Posted(p, [])
    else
      var n := Min(p.credits, |p.queue|);
      var left := p.queue[n..];
      if p.upstreamEnded && left == []
      then Posted(p.(queue := left, credits := p.credits - n, finished := true), Chunks(p.queue[..n]) + [End])
      else Posted(p.(queue := left, credits := p.credits - n, paused := |left| >= QUEUED_CHUNKS), Chunks(p.queue[..n]))
  }

  /** A chunk of the server's as it is queued: pieces of at most MAX_CHUNK_BYTES. */
  function Pieces(chunk: seq<Byte>): (pieces: seq<seq<Byte>>)
    decreases |chunk|
  {
    if chunk == [] then []
    else if |chunk| <= MAX_CHUNK_BYTES then [chunk]
    else [chunk[..MAX_CHUNK_BYTES]] + Pieces(chunk[MAX_CHUNK_BYTES..])
  }

  function Pulled(p: Page): Posted {
    Flushed(p.(credits := p.credits + 1))
  }

  function Cancelled(p: Page): Posted {
    Posted(if p.finished then p else p.(finished := true, queue := []), [])
  }

  function Produced(p: Page, chunk: seq<Byte>): Posted {
    if p.finished then Posted(p, []) else Flushed(p.(queue := p.queue + Pieces(chunk)))
  }

  function ServerEnded(p: Page): Posted {
    Flushed(p.(upstreamEnded := true))
  }

  function ServerFailed(p: Page): Posted {
    if p.finished then Posted(p, []) else Posted(p.(finished := true), [Error])
  }

  /** No server listens on the port: an empty 503. */
  function Unanswered(p: Page): Posted {
    Posted(p.(finished := true), [Start, End])
  }

  /** The page's end as its closures run it: the variables they share, and what they have posted. */
  class ControlledStream {
    var queue: seq<seq<Byte>>
    var credits: nat
    var upstreamEnded: bool
    var finished: bool
    var paused: bool
    var posted: seq<Msg>

    function Value(): Page
      reads this
    {
      Page(queue, credits, upstreamEnded, finished, paused)
    }

    constructor ()
      ensures Value() == Page([], 0, false, false, false) && posted == []
    {
      queue, credits, upstreamEnded, finished, paused, posted := [], 0, false, false, false, [];
    }

    method Flush()
      modifies this
      ensures Value() == Flushed(old(Value())).page
      ensures posted == old(posted) + Flushed(old(Value())).msgs
    {
      if finished {
        return;
      }
      ghost var n := Min(credits, |queue|);
      ghost var k := 0;
      while credits > 0 && |queue| > 0
        invariant k <= n && k <= old(credits) && queue == old(queue)[k..] && credits == old(credits) - k
        invariant posted == old(posted) + Chunks(old(queue)[..k])
        invariant upstreamEnded == old(upstreamEnded) && !finished && paused == old(paused)
        decreases credits
      {
        assert old(queue)[..k + 1] == old(queue)[..k] + [old(queue)[k]];
        assert Chunks(old(queue)[..k + 1]) == Chunks(old(queue)[..k]) + [Chunk(old(queue)[k])];
        credits := credits - 1;
        posted := posted + [Chunk(queue[0])];
        queue := queue[1..];
        k := k + 1;
      }
      assert k == n;
      if upstreamEnded && |queue| == 0 {
        posted := posted + [End];
        finished := true;
        return;
      }
      if |queue| >= QUEUED_CHUNKS && !paused {
        paused := true;
      } else if |queue| < QUEUED_CHUNKS && paused {
        paused := false;
      }
    }

    method Pull()
      modifies this
      ensures Value() == Pulled(old(Value())).page && posted == old(posted) + Pulled(old(Value())).msgs
    {
      credits := credits + 1;
      Flush();
    }

    method Cancel()
      modifies this
      ensures Value() == Cancelled(old(Value())).page && posted == old(posted)
    {
      if finished {
        return;
      }
      finished := true;
      queue := [];
    }

    method ServerChunk(chunk: seq<Byte>)
      modifies this
      ensures Value() == Produced(old(Value()), chunk).page && posted == old(posted) + Produced(old(Value()), chunk).msgs
    {
      hide Flushed, Chunks, Pieces;
      if finished {
        return;
      }
      var at := 0;
      assert chunk[0..] == chunk;
      while at < |chunk|
        invariant 0 <= at
        invariant queue + Pieces(chunk[Min(at, |chunk|)..]) == old(queue) + Pieces(chunk[0..])
        invariant credits == old(credits) && upstreamEnded == old(upstreamEnded) && !finished
        invariant paused == old(paused) && posted == old(posted)
      {
        var upto := if at + MAX_CHUNK_BYTES < |chunk| then at + MAX_CHUNK_BYTES else |chunk|;
        PiecesStep(chunk, at, upto);
        Regroup(queue, chunk[at..upto], Pieces(chunk[upto..]));
        queue := queue + [chunk[at..upto]];
        at := at + MAX_CHUNK_BYTES;
      }
      NoPieces(chunk[Min(at, |chunk|)..], queue);
      Flush();
    }

    method ServerEnd()
      modifies this
      ensures Value() == ServerEnded(old(Value())).page && posted == old(posted) + ServerEnded(old(Value())).msgs
    {
      upstreamEnded := true;
      Flush();
    }
  }

  lemma Regroup(queue: seq<seq<Byte>>, piece: seq<Byte>, rest: seq<seq<Byte>>)
    ensures queue + ([piece] + rest) == queue + [piece] + rest
  {
  }

  lemma NoPieces(chunk: seq<Byte>, queue: seq<seq<Byte>>)
    requires chunk == []
    ensures queue + Pieces(chunk) == queue
  {
  }

  lemma PiecesStep(chunk: seq<Byte>, at: nat, upto: nat)
    requires at < |chunk| && upto == Min(at + MAX_CHUNK_BYTES, |chunk|)
    ensures Pieces(chunk[at..]) == [chunk[at..upto]] + Pieces(chunk[upto..])
  {
    var rest := chunk[at..];
    if |rest| <= MAX_CHUNK_BYTES {
      assert rest == chunk[at..upto] && chunk[upto..] == [];
    } else {
      assert rest[..MAX_CHUNK_BYTES] == chunk[at..upto] && rest[MAX_CHUNK_BYTES..] == chunk[upto..];
    }
  }

  function Flat(pieces: seq<seq<Byte>>): seq<Byte> {
    if pieces == [] then [] else pieces[0] + Flat(pieces[1..])
  }

  /** Cutting a chunk loses nothing and leaves no piece empty or over the limit the worker enforces. */
  lemma {:induction false} PiecesKeepBytes(chunk: seq<Byte>)
    ensures Flat(Pieces(chunk)) == chunk
    ensures forall piece :: piece in Pieces(chunk) ==> 0 < |piece| <= 65536
    decreases |chunk|
  {
    if |chunk| > MAX_CHUNK_BYTES {
      PiecesKeepBytes(chunk[MAX_CHUNK_BYTES..]);
      assert chunk == chunk[..MAX_CHUNK_BYTES] + chunk[MAX_CHUNK_BYTES..];
    } else if chunk != [] {
      assert [chunk][1..] == [];
    }
  }

  // ------------------------------------------------------------------ the worker's end

  datatype Body = Readable | Closed | Errored | Abandoned

  /**
   * `pulling`: the stream's pull has not settled. `violated`, a history: whether a message or a pull was ever refused
   * as one the protocol does not allow.
   */
  datatype Worker = Worker(headed: bool, credited: bool, ended: bool, pulling: bool, body: Body,
                           received: seq<seq<Byte>>, violated: bool)

  datatype Sent = Sent(worker: Worker, orders: seq<Order>)

  /** `fail` with or without telling the page. */
  function Fail(w: Worker, notify: bool): (t: Sent)
    ensures |t.orders| <= 1 && (w.ended ==> t.worker.ended) && (Cancel in t.orders ==> t.worker.ended)
  {
    if w.ended then Sent(w, [])
    else Sent(w.(ended := true, pulling := false, body := Errored), if notify then [Cancel] else [])
  }

  function WorkerPull(w: Worker): (t: Sent)
    ensures |t.orders| <= 1 && (w.ended ==> t.worker.ended) && (Cancel in t.orders ==> t.worker.ended)
  {
    if w.ended then Sent(w, [])
    else if w.credited then Sent(w.(violated := true, body := Errored), [])
    else Sent(w.(credited := true, pulling := true), [Pull])
  }

  function WorkerCancel(w: Worker): (t: Sent)
    ensures |t.orders| <= 1 && (w.ended ==> t.worker.ended) && (Cancel in t.orders ==> t.worker.ended)
  {
    if w.ended then Sent(w, []) else Sent(w.(ended := true, pulling := false, body := Abandoned), [Cancel])
  }

  /** A message of the page's; one that comes after the end finds no request and is dropped. */
  function WorkerMessage(w: Worker, m: Msg): (t: Sent)
    ensures |t.orders| <= 1 && (w.ended ==> t.worker.ended) && (Cancel in t.orders ==> t.worker.ended)
  {
    if w.ended then Sent(w, [])
    else match m
      case Start => if !w.headed then Sent(w.(headed := true), []) else Refuse(w)
      case Chunk(bytes) =>
        if w.headed && w.credited then
          if |bytes| > MAX_CHUNK_BYTES then Refuse(w)
          else Sent(w.(credited := false, pulling := false, received := w.received + [bytes]), [])
        else Refuse(w)
      case End => if w.headed then Sent(w.(ended := true, pulling := false, body := Closed), []) else Refuse(w)
      case Error => Fail(w, false)
  }

  function Refuse(w: Worker): (t: Sent)
    ensures |t.orders| <= 1 && (w.ended ==> t.worker.ended) && (Cancel in t.orders ==> t.worker.ended)
  {
    Fail(w.(violated := true), true)
  }

  // ------------------------------------------------------------------ the two together

  datatype Server = Silent | Answering | Ended | Gone

  /**
   * `log` is every message the page ever posted, of which the worker has taken the first `consumed`; `orders` those
   * of the worker's still on their way. The history: what the server produced, and the pulls sent and seen.
   */
  datatype System = System(
    worker: Worker,
    page: Page,
    log: seq<Msg>,
    consumed: nat,
    orders: seq<Order>,
    server: Server,
    produced: seq<seq<Byte>>,
    pulls: nat,
    seen: nat)

  function Initial(): System {
    System(Worker(false, false, false, false, Readable, [], false), Page([], 0, false, false, false),
           [], 0, [], Silent, [], 0, 0)
  }

  datatype Event =
    | ReaderPulls
    | ReaderCancels
    | WorkerFails(notify: bool)
    | WorkerTakes
    | PageTakes
    | ServerStarts
    | ServerSends(chunk: seq<Byte>)
    | ServerEnds
    | ServerThrows
    | NoServer

  /** The server starts once, then sends, then ends; the stream pulls only once its last pull has settled. */
  predicate Enabled(s: System, e: Event) {
    match e
    case ReaderPulls => s.worker.body.Readable? && !s.worker.pulling
    case ReaderCancels => s.worker.body.Readable?
    case WorkerFails(_) => true
    case WorkerTakes => s.consumed < |s.log|
    case PageTakes => s.orders != []
    case ServerStarts => s.server.Silent?
    case ServerSends(_) => s.server.Answering?
    case ServerEnds => s.server.Answering?
    case ServerThrows => !s.server.Gone?
    case NoServer => s.server.Silent?
  }

  function Do(s: System, e: Event): System
    requires Enabled(s, e)
  {
    match e
    case ReaderPulls => Tell(s, WorkerPull(s.worker))
    case ReaderCancels => Tell(s, WorkerCancel(s.worker))
    case WorkerFails(notify) => Tell(s, Fail(s.worker, notify))
    case WorkerTakes => Tell(s, WorkerMessage(s.worker, s.log[s.consumed])).(consumed := s.consumed + 1)
    case PageTakes =>
      if s.orders[0].Pull? then Post(s, Pulled(s.page)).(orders := s.orders[1..], seen := s.seen + 1)
      else Post(s, Cancelled(s.page)).(orders := s.orders[1..])
    case ServerStarts => s.(log := s.log + [Start], server := Answering)
    case ServerSends(chunk) => Post(s, Produced(s.page, chunk)).(produced := s.produced + Pieces(chunk))
    case ServerEnds => Post(s, ServerEnded(s.page)).(server := Ended)
    case ServerThrows => Post(s, ServerFailed(s.page)).(server := Gone)
    case NoServer => Post(s, Unanswered(s.page)).(server := Gone)
  }

  function Post(s: System, p: Posted): System {
    s.(page := p.page, log := s.log + p.msgs)
  }

  function Tell(s: System, t: Sent): System {
    s.(worker := t.worker, orders := s.orders + t.orders, pulls := s.pulls + (if t.orders == [Pull] then 1 else 0))
  }

  ghost predicate IsRun(run: seq<System>, events: seq<Event>) {
    && |run| == |events| + 1
    && run[0] == Initial()
    && forall i :: 0 <= i < |events| ==> Enabled(run[i], events[i]) && run[i + 1] == Do(run[i], events[i])
  }
}
