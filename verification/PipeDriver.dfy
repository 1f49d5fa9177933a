/**
 * A process's end of a pipe another worker owns: the queue of its writes, the pump that hands them over a chunk at a
 * time, its shutdown, its close, and the owner's stop. A method runs from one event to the next thing awaited.
 */
module PipeDriver {
  import opened Wrappers
  import opened WriteChunks

  datatype Status = Success | Errno(name: string)

  const EBADF := Errno("EBADF")
  const EPIPE := Errno("EPIPE")
  const EINVAL := Errno("EINVAL")
  const EAGAIN := Errno("EAGAIN")
  const ENOSYS := Errno("ENOSYS")
  const ECANCELED := Errno("ECANCELED")

  /** How an awaited write of the channel ends. */
  datatype Reply = Answered(status: Status) | Rejected

  /** What the bounded synchronous attempt comes to: none made, a status, the submitted write's own completion, a throw. */
  datatype Attempt = NotMade | Tried(status: Status) | Late | Threw

  datatype PendingWrite = PendingWrite(id: nat, parts: seq<Bytes>, sent: Option<nat>, submitted: bool)

  /** Where the pump is: not running, between two writes, or waiting for the owner. */
  datatype Pump = Resting | Between | AwaitingAttempt(id: nat) | AwaitingChunk(id: nat, rest: seq<Bytes>)

  datatype Shutdown = Unasked | Waiting | Submitted | Cancelled

  function Queued(writes: seq<PendingWrite>): nat {
    if writes == [] then 0 else |Flat(writes[0].parts)| + Queued(writes[1..])
  }

  lemma {:induction false} QueuedAppend(writes: seq<PendingWrite>, w: PendingWrite)
    ensures Queued(writes + [w]) == Queued(writes) + |Flat(w.parts)|
  {
    if writes == [] {
      assert [w][1..] == [];
    } else {
      assert (writes + [w])[1..] == writes[1..] + [w];
      QueuedAppend(writes[1..], w);
    }
  }

  lemma QueuedHead(writes: seq<PendingWrite>)
    requires writes != []
    ensures Queued(writes) == |Flat(writes[0].parts)| + Queued(writes[1..])
  {
  }

  /** The descriptors a queue's writes still carry. */
  function Carried(writes: seq<PendingWrite>): set<nat> {
    set w | w in writes && w.sent.Some? :: w.sent.value
  }

  predicate Distinct(writes: seq<PendingWrite>) {
    forall i, j :: 0 <= i < j < |writes| && writes[i].sent.Some? ==> writes[i].sent != writes[j].sent
  }

  lemma CarriedHead(writes: seq<PendingWrite>)
    requires writes != [] && Distinct(writes)
    ensures Carried(writes[1..]) == Carried(writes) - (if writes[0].sent.Some? then {writes[0].sent.value} else {})
    ensures Distinct(writes[1..])
  {
    assert writes == [writes[0]] + writes[1..];
    if writes[0].sent.Some? {
      assert forall w <- writes[1..] :: w.sent != writes[0].sent;
    }
  }

  lemma CarriedAppend(writes: seq<PendingWrite>, w: PendingWrite)
    requires Distinct(writes) && (w.sent.Some? ==> w.sent.value !in Carried(writes))
    ensures Carried(writes + [w]) == Carried(writes) + (if w.sent.Some? then {w.sent.value} else {})
    ensures Distinct(writes + [w])
  {
    forall i | 0 <= i < |writes| && writes[i].sent.Some? ensures writes[i].sent != w.sent {
      assert writes[i].sent.value in Carried(writes);
    }
  }

  /** Bytes given for a write after which nothing has been given yet end the stream. */
  lemma {:induction false} GivenNext(given: seq<Bytes>, id: nat, c: Bytes)
    requires id < |given| && forall j :: id < j < |given| ==> given[j] == []
    ensures Flat(given[id := given[id] + c]) == Flat(given) + c
  {
    var before, after := given[..id], given[id + 1..];
    assert given == before + [given[id]] + after;
    assert given[id := given[id] + c] == before + [given[id] + c] + after;
    FlatEmpty(after);
    FlatOne(given[id]);
    FlatOne(given[id] + c);
    FlatAppend(before, [given[id]]);
    FlatAppend(before + [given[id]], after);
    FlatAppend(before, [given[id] + c]);
    FlatAppend(before + [given[id] + c], after);
  }

  lemma FlatHead(rest: seq<Bytes>)
    ensures rest == [] ==> Flat(rest) == []
    ensures rest != [] ==> Flat(rest) == rest[0] + Flat(rest[1..])
  {
  }

  /**
   * What has happened: every write ever accepted, the bytes given to the owner for it, how it ended, and the bytes given
   * in the order they were.
   */
  datatype Log = Log(accepted: seq<Bytes>, given: seq<Bytes>, ends: seq<Option<Status>>, stream: Bytes)

  /** The writes not ended are the last accepted, in order; each before them ended. */
  predicate Ordered(l: Log, writes: seq<PendingWrite>) {
    && |l.given| == |l.accepted| && |l.ends| == |l.accepted| && |writes| <= |l.accepted|
    && (forall k :: 0 <= k < |writes| ==> writes[k].id == |l.accepted| - |writes| + k)
    && (forall k :: 0 <= k < |writes| ==> Flat(writes[k].parts) == l.accepted[writes[k].id] != [])
    && (forall id :: 0 <= id < |l.accepted| ==> (l.ends[id] == None <==> id >= |l.accepted| - |writes|))
  }

  /**
   * Bytes go to the owner in the order accepted, each at most once, and all of them for a write that succeeds.
   * `cutting`: the first write's chunks are being given.
   */
  predicate InOrder(l: Log, writes: seq<PendingWrite>, cutting: bool)
    requires Ordered(l, writes)
  {
    && l.stream == Flat(l.given)
    && (forall id :: 0 <= id < |l.accepted| ==> l.given[id] <= l.accepted[id])
    && (forall id :: 0 <= id < |l.accepted| && l.ends[id] == Some(Success) ==> l.given[id] == l.accepted[id])
    && (forall id :: |l.accepted| - |writes| < id < |l.accepted| ==> l.given[id] == [])
    && (forall k :: 0 < k < |writes| ==> !writes[k].submitted)
    && (writes != [] && !writes[0].submitted && !cutting ==> l.given[writes[0].id] == [])
    && (writes != [] && writes[0].submitted ==> l.given[writes[0].id] == l.accepted[writes[0].id])
  }

  predicate Logged(l: Log, writes: seq<PendingWrite>, cutting: bool) {
    Ordered(l, writes) && InOrder(l, writes, cutting)
  }

  /** A write that ended stays ended as it did; bytes given stay given. */
  predicate Grown(was: Log, now: Log) {
    && was.accepted <= now.accepted && was.stream <= now.stream
    && |was.ends| == |was.accepted| && |now.ends| == |now.accepted|
    && forall id :: 0 <= id < |was.accepted| && was.ends[id].Some? ==> now.ends[id] == was.ends[id]
  }

  function Ended(l: Log, id: nat, status: Status): Log
    requires id < |l.ends|
  {
    l.(ends := l.ends[id := Some(status)])
  }

  function Given(l: Log, id: nat, chunk: Bytes): Log
    requires id < |l.given|
  {
    l.(given := l.given[id := l.given[id] + chunk], stream := l.stream + chunk)
  }

  function Accepted(l: Log, bytes: Bytes, given: Bytes, end: Option<Status>): Log {
    Log(l.accepted + [bytes], l.given + [given], l.ends + [end], l.stream + given)
  }

  lemma HeadOf(l: Log, writes: seq<PendingWrite>, cutting: bool)
    requires Logged(l, writes, cutting) && writes != []
    ensures writes[0].id < |l.accepted| && |l.given| == |l.accepted| == |l.ends|
    ensures Flat(writes[0].parts) == l.accepted[writes[0].id] != []
    ensures !writes[0].submitted && !cutting ==> l.given[writes[0].id] == []
    ensures writes[0].submitted ==> l.given[writes[0].id] == l.accepted[writes[0].id]
  {
  }

  lemma EndedLogged(l: Log, writes: seq<PendingWrite>, cutting: bool, status: Status)
    requires Logged(l, writes, cutting) && writes != []
    requires status == Success ==> l.given[writes[0].id] == l.accepted[writes[0].id]
    ensures Logged(Ended(l, writes[0].id, status), writes[1..], false)
    ensures Logged(Ended(l, writes[0].id, status), writes[1..], true)
    ensures Grown(l, Ended(l, writes[0].id, status))
  {
    hide Flat;
    var rest := writes[1..];
    assert forall k :: 0 <= k < |rest| ==> rest[k] == writes[k + 1];
  }

  lemma GivenLogged(l: Log, writes: seq<PendingWrite>, cutting: bool, chunk: Bytes)
    requires Logged(l, writes, cutting) && writes != [] && !writes[0].submitted
    requires l.given[writes[0].id] + chunk <= l.accepted[writes[0].id]
    ensures Logged(Given(l, writes[0].id, chunk), writes, true)
    ensures Grown(l, Given(l, writes[0].id, chunk))
  {
    hide Flat;
    GivenNext(l.given, writes[0].id, chunk);
  }

  lemma AcceptedLogged(l: Log, writes: seq<PendingWrite>, cutting: bool, w: PendingWrite, given: Bytes)
    requires Logged(l, writes, cutting) && w.id == |l.accepted| && Flat(w.parts) != []
    requires w.submitted ==> writes == []
    requires given == if w.submitted then Flat(w.parts) else []
    ensures Logged(Accepted(l, Flat(w.parts), given, None), writes + [w], cutting && writes != [])
    ensures Grown(l, Accepted(l, Flat(w.parts), given, None))
  {
    hide Flat;
    FlatAppend(l.given, [given]);
    FlatOne(given);
  }

  lemma SameLengths(l: Log, writes: seq<PendingWrite>, cutting: bool)
    requires Logged(l, writes, cutting)
    ensures |l.given| == |l.accepted|
  {
  }

  /** A write that ended before it was ever queued. */
  lemma AtOnceLogged(l: Log, bytes: Bytes, given: Bytes, status: Status)
    requires Logged(l, [], false) && given <= bytes && (status == Success ==> given == bytes)
    ensures Logged(Accepted(l, bytes, given, Some(status)), [], false)
    ensures Grown(l, Accepted(l, bytes, given, Some(status)))
  {
    hide Flat;
    FlatAppend(l.given, [given]);
    FlatOne(given);
  }

  lemma GrownTwice(a: Log, b: Log, c: Log)
    requires Grown(a, b) && Grown(b, c)
    ensures Grown(a, c)
  {
  }

  function FirstOf(bytes: Bytes, limit: nat): Bytes {
    bytes[..Min(|bytes|, limit)]
  }

  /** What the transport takes at once. */
  predicate Fit(chunks: seq<Bytes>, limit: nat) {
    forall c <- chunks :: 0 < |c| <= limit
  }

  lemma GrownItself(l: Log, writes: seq<PendingWrite>, cutting: bool)
    requires Logged(l, writes, cutting)
    ensures Grown(l, l) && Logged(l, writes, true)
  {
  }

  class NativeStreamDriver {
    const limit: nat
    var closing: bool
    var stopped: bool
    var writeEnded: bool
    var writes: seq<PendingWrite>
    var pump: Pump
    var writeQueueSize: int
    var pendingShutdown: bool
    /** A write is known by its number. */
    var nextId: nat
    /** Descriptors duplicated for writes and not yet closed. */
    var held: set<nat>
    ghost var log: Log
    ghost var shutdown: Shutdown

    constructor (limit: nat)
      requires limit > 0
      ensures Valid() && log == Log([], [], [], []) && shutdown == Unasked && !closing
    {
      this.limit := limit;
      closing, stopped, writeEnded, writes, pump, writeQueueSize := false, false, false, [], Resting, 0;
      pendingShutdown, nextId, held, log, shutdown := false, 0, {}, Log([], [], [], []), Unasked;
    }

    /** The pump runs while anything is queued or a shutdown waits, and works on the first write. */
    ghost predicate Pumped()
      reads this
    {
      && (pump.Resting? ==> writes == [] && !pendingShutdown)
      && (stopped ==> writes == [])
      && ((pump.AwaitingAttempt? || pump.AwaitingChunk?) && !stopped ==> writes != [])
      && (pump.AwaitingChunk? ==> Fit(pump.rest, limit))
      && (pump.AwaitingAttempt? && writes != [] ==> pump.id == writes[0].id && writes[0].submitted)
      && (pump.AwaitingChunk? && writes != [] ==>
            && pump.id == writes[0].id && !writes[0].submitted && pump.id < |log.given| && pump.id < |log.accepted|
            && log.given[pump.id] + Flat(pump.rest) == log.accepted[pump.id])
    }

    ghost predicate Ending()
      reads this
    {
      && (writeEnded <==> shutdown != Unasked)
      && (pendingShutdown <==> shutdown == Waiting)
      && (shutdown == Submitted ==> writes == [])
      && (stopped ==> closing)
    }

    ghost predicate Queue()
      reads this
    {
      writeQueueSize == Queued(writes) && held == Carried(writes) && Distinct(writes) && nextId == |log.accepted|
    }

    ghost predicate Valid()
      reads this
    {
      limit > 0 && Logged(log, writes, pump.AwaitingChunk?) && Pumped() && Ending() && Queue()
    }

    /** What the pump leaves to others, and a shutdown sent or refused once and for all. */
    twostate predicate Kept()
      reads this
    {
      && closing == old(closing) && stopped == old(stopped) && writeEnded == old(writeEnded)
      && (old(shutdown) == Unasked || old(shutdown) == Submitted || old(shutdown) == Cancelled ==> shutdown == old(shutdown))
    }

    // ---------------------------------------------------------------- the pump

    /** The first write ends: out of the queue, its descriptor closed, its request completed. */
    method FinishHead(status: Status)
      requires limit > 0 && Logged(log, writes, true) && Ending() && Queue() && writes != []
      requires status == Success ==> (HeadOf(log, writes, true); log.given[writes[0].id] == log.accepted[writes[0].id])
      modifies this`writes, this`writeQueueSize, this`held, this`log
      ensures Logged(log, writes, false) && Logged(log, writes, true) && Ending() && Queue() && Grown(old(log), log)
      ensures old(writes[0].id) < |old(log.ends)| && log == Ended(old(log), old(writes[0].id), status)
      ensures writes == old(writes)[1..]
    {
      hide Flat, Queued, Carried, Distinct, Logged, Grown;
      HeadOf(log, writes, true);
      EndedLogged(log, writes, true, status);
      CarriedHead(writes);
      QueuedHead(writes);
      log := Ended(log, writes[0].id, status);
      writeQueueSize := writeQueueSize - |Flat(writes[0].parts)|;
      if writes[0].sent.Some? {
        held := held - {writes[0].sent.value};
      }
      writes := writes[1..];
    }

    /** The next chunk of the first write is given to the owner; with none left, or when closing, the write ends. */
    method NextChunk(rest: seq<Bytes>)
      requires limit > 0 && Logged(log, writes, true) && Ending() && Queue()
      requires writes != [] && !writes[0].submitted && !stopped && Fit(rest, limit)
      requires (HeadOf(log, writes, true); log.given[writes[0].id] + Flat(rest) == log.accepted[writes[0].id])
      modifies this`pump, this`writes, this`writeQueueSize, this`held, this`log
      ensures Valid() && Grown(old(log), log)
      ensures old(writes[0].id) < |old(log.ends)| == |old(log.given)|
      ensures rest == [] ==> log == Ended(old(log), old(writes[0].id), Success) && pump == Between
      ensures rest != [] && closing ==> log == Ended(old(log), old(writes[0].id), ECANCELED) && pump == Between
      ensures rest != [] && !closing ==>
                && log == Given(old(log), old(writes[0].id), rest[0])
                && pump == AwaitingChunk(old(writes[0].id), rest[1..]) && writes == old(writes)
    {
      hide Flat, Queued, Carried, Distinct, Logged, Grown;
      FlatHead(rest);
      HeadOf(log, writes, true);
      if rest == [] {
        assert log.given[writes[0].id] + [] == log.given[writes[0].id];
        FinishHead(Success);
        pump := Between;
      } else if closing {
        FinishHead(ECANCELED);
        pump := Between;
      } else {
        var before := log.given[writes[0].id];
        assert before + (rest[0] + Flat(rest[1..])) == before + rest[0] + Flat(rest[1..]);
        GivenLogged(log, writes, true, rest[0]);
        log := Given(log, writes[0].id, rest[0]);
        pump := AwaitingChunk(writes[0].id, rest[1..]);
      }
    }

    method FlushShutdown()
      requires Ending()
      modifies this`pendingShutdown, this`shutdown
      ensures Ending()
      ensures old(pendingShutdown) && writes == [] ==> shutdown == if closing then Cancelled else Submitted
      ensures writes == [] ==> !pendingShutdown
      ensures !old(pendingShutdown) || writes != [] ==> pendingShutdown == old(pendingShutdown) && shutdown == old(shutdown)
    {
      if writes != [] || !pendingShutdown {
        return;
      }
      pendingShutdown := false;
      shutdown := if closing then Cancelled else Submitted;
    }

    /** The pump's loop from where nothing is awaited to the next thing awaited. */
    method RunPump()
      requires Valid() && pump == Between
      modifies this
      ensures Valid() && Grown(old(log), log) && Kept()
      ensures old(writes) == [] ==> log == old(log) && pump == Resting
      ensures old(writes) != [] ==> old(writes[0].id) < |old(log.ends)| == |old(log.given)|
      ensures old(writes) != [] && old(writes[0].submitted) ==>
                log == old(log) && writes == old(writes) && pump == AwaitingAttempt(old(writes[0].id))
      ensures old(writes) != [] && !old(writes[0].submitted) && closing ==>
                log == Ended(old(log), old(writes[0].id), ECANCELED) && pump == Between
      ensures old(writes) != [] && !old(writes[0].submitted) && !closing ==>
                && log == Given(old(log), old(writes[0].id), FirstOf(Flat(old(writes[0].parts)), limit))
                && writes == old(writes) && pump.AwaitingChunk?
    {
      hide Flat, Queued, Carried, Distinct, Logged, Grown;
      GrownItself(log, writes, false);
      if writes == [] {
        pump := Resting;
        FlushShutdown();
      } else if writes[0].submitted {
        pump := AwaitingAttempt(writes[0].id);
        HeadOf(log, writes, false);
      } else {
        HeadOf(log, writes, false);
        var chunks := Cut(writes[0].parts, limit);
        assert [] + Flat(chunks) == Flat(chunks);
        FlatHead(chunks);
        FirstCut(chunks, limit);
        NextChunk(chunks);
      }
    }

    // ---------------------------------------------------------------- the events

    /** `attempt`: what the synchronous attempt comes to, where one is made. */
    method Write(parts: seq<Bytes>, sent: Option<nat>, attempt: Attempt) returns (status: Status, async: bool)
      requires Valid() && (sent.Some? ==> sent.value !in held)
      modifies this
      ensures Valid() && Grown(old(log), log) && Kept()
      ensures closing ==> status == EBADF
      ensures !closing && writeEnded ==> status == EPIPE
      ensures !closing && !writeEnded && Flat(parts) == [] ==> status == if sent.None? then Success else EINVAL
      ensures closing || writeEnded || Flat(parts) == [] ==> !async && log == old(log) && writes == old(writes)
      ensures !closing && !writeEnded && Flat(parts) != [] ==>
                && log.accepted == old(log.accepted) + [Flat(parts)]
                && log.ends == old(log.ends) + [if async then None else Some(status)]
                && (async ==> status == Success)
      ensures !closing && !writeEnded && Flat(parts) != [] && !async ==>
                && writes == old(writes) && pump == old(pump)
                && (attempt.Tried? ==> status == attempt.status) && (attempt == Threw ==> status == EPIPE)
                && log == Accepted(old(log), Flat(parts), if attempt == Threw || status == Success then Flat(parts) else [],
                                   Some(status))
      // Only an attempt that could be made, and that came to an end of its own, ends the write at once.
      ensures !closing && !writeEnded && Flat(parts) != [] ==>
                (!async <==>
                  && sent.None? && old(writes) == [] && old(pump) == Resting && |Flat(parts)| <= limit
                  && (attempt == Threw || (attempt.Tried? && attempt.status != EAGAIN && attempt.status != ENOSYS)))
      // Behind others it is queued; alone it is what the pump works on, from where the attempt left it.
      ensures async && old(pump) != Resting ==>
                && writes == old(writes) + [PendingWrite(old(nextId), parts, sent, false)] && pump == old(pump)
                && log == Accepted(old(log), Flat(parts), [], None)
      ensures async && old(pump) == Resting ==>
                && writes == [PendingWrite(old(nextId), parts, sent,
                                           attempt == Late && sent.None? && |Flat(parts)| <= limit)]
                && |old(log.accepted)| == |old(log.given)| == old(nextId)
                && log == (if writes[0].submitted then Accepted(old(log), Flat(parts), Flat(parts), None)
                           else Given(Accepted(old(log), Flat(parts), [], None), old(nextId), FirstOf(Flat(parts), limit)))
                && if writes[0].submitted then pump == AwaitingAttempt(old(nextId)) else pump.AwaitingChunk?
    {
      hide Flat, Queued, Carried, Distinct, Logged, Grown;
      async := false;
      GrownItself(log, writes, pump.AwaitingChunk?);
      var bytes := |Flat(parts)|;
      if closing || stopped {
        return EBADF, false;
      }
      if writeEnded {
        return EPIPE, false;
      }
      if bytes == 0 {
        return if sent.None? then Success else EINVAL, false;
      }
      var late := false;
      if sent.None? && writes == [] && pump == Resting && bytes <= limit && attempt != NotMade {
        var chunks := Cut(parts, limit);
        OneChunk(chunks, limit);
        var chunk := chunks[0];
        if attempt == Threw {
          status := if stopped then ECANCELED else EPIPE;
          EndAtOnce(chunk, chunk, status);
          return;
        } else if attempt == Late {
          late := true;
        } else if attempt.status != EAGAIN && attempt.status != ENOSYS {
          status := attempt.status;
          EndAtOnce(chunk, if status == Success then chunk else [], status);
          return;
        }
      }
      Put(parts, sent, late);
      return Success, true;
    }

    /** A write the attempt ended: `given`, the bytes the owner took or may have taken. */
    method EndAtOnce(bytes: Bytes, ghost given: Bytes, status: Status)
      requires Valid() && writes == [] && pump == Resting
      requires given <= bytes && (status == Success ==> given == bytes)
      modifies this`log, this`nextId
      ensures Valid() && Grown(old(log), log)
      ensures log == Accepted(old(log), bytes, given, Some(status))
    {
      hide Flat, Queued, Carried, Distinct, Logged, Grown;
      AtOnceLogged(log, bytes, given, status);
      log := Accepted(log, bytes, given, Some(status));
      nextId := nextId + 1;
    }

    /** A write waits its turn, and a pump at rest takes it up. */
    method Put(parts: seq<Bytes>, sent: Option<nat>, late: bool)
      requires Valid() && !closing && !stopped && !writeEnded && Flat(parts) != []
      requires sent.Some? ==> sent.value !in held
      requires late ==> writes == [] && pump == Resting
      modifies this
      ensures Valid() && Grown(old(log), log) && Kept()
      ensures old(pump) != Resting ==>
                && writes == old(writes) + [PendingWrite(old(nextId), parts, sent, false)] && pump == old(pump)
                && log == Accepted(old(log), Flat(parts), [], None)
      ensures old(pump) == Resting ==>
                && writes == [PendingWrite(old(nextId), parts, sent, late)]
                && |old(log.accepted)| == |old(log.given)| == old(nextId)
                && log == (if late then Accepted(old(log), Flat(parts), Flat(parts), None)
                           else Given(Accepted(old(log), Flat(parts), [], None), old(nextId), FirstOf(Flat(parts), limit)))
                && if late then pump == AwaitingAttempt(old(nextId)) else pump.AwaitingChunk?
    {
      hide Flat, Queued, Carried, Distinct, Logged, Grown;
      SameLengths(log, writes, pump.AwaitingChunk?);
      Enqueue(parts, sent, late);
      if pump == Resting {
        pump := Between;
        ghost var queued := log;
        RunPump();
        GrownTwice(old(log), queued, log);
      }
    }

    /** A write joins the queue; `submitted`: its bytes are with the owner already. */
    method Enqueue(parts: seq<Bytes>, sent: Option<nat>, submitted: bool)
      requires Valid() && !closing && !writeEnded && Flat(parts) != []
      requires sent.Some? ==> sent.value !in held
      requires submitted ==> writes == [] && pump == Resting
      modifies this`writes, this`writeQueueSize, this`held, this`nextId, this`log
      ensures limit > 0 && Logged(log, writes, pump.AwaitingChunk?) && Ending() && Queue() && Grown(old(log), log)
      ensures pump != Resting ==> Valid()
      ensures writes == old(writes) + [PendingWrite(old(nextId), parts, sent, submitted)]
      ensures log == Accepted(old(log), Flat(parts), if submitted then Flat(parts) else [], None)
    {
      hide Flat, Queued, Carried, Distinct, Logged, Grown;
      if writes != [] { HeadOf(log, writes, pump.AwaitingChunk?); }
      var write := PendingWrite(nextId, parts, sent, submitted);
      QueuedAppend(writes, write);
      CarriedAppend(writes, write);
      AcceptedLogged(log, writes, pump.AwaitingChunk?, write, if submitted then Flat(parts) else []);
      log := Accepted(log, Flat(parts), if submitted then Flat(parts) else [], None);
      writeQueueSize := writeQueueSize + |Flat(parts)|;
      if sent.Some? {
        held := held + {sent.value};
      }
      writes := writes + [write];
      nextId := nextId + 1;
    }

    /** What the pump waited for arrives. A write the owner's stop has ended meanwhile is not looked at again. */
    method Resume(reply: Reply)
      requires Valid() && (pump.AwaitingAttempt? || pump.AwaitingChunk?)
      modifies this
      ensures Valid() && Grown(old(log), log) && Kept()
      ensures old(writes) == [] ==> log == old(log) && pump == Between
      ensures old(writes) != [] ==> old(writes[0].id) < |old(log.ends)| == |old(log.given)|
      ensures old(writes) != [] && reply == Rejected ==> log == Ended(old(log), old(writes[0].id), EPIPE)
      ensures old(writes) != [] && reply.Answered? && reply.status != Success ==>
                log == Ended(old(log), old(writes[0].id), reply.status)
      ensures old(writes) != [] && reply == Answered(Success) && old(pump.AwaitingAttempt?) ==>
                log == Ended(old(log), old(writes[0].id), Success)
      ensures old(writes) != [] && reply == Answered(Success) && old(pump.AwaitingChunk?) ==>
                log == if old(pump.rest) == [] then Ended(old(log), old(writes[0].id), Success)
                       else if closing then Ended(old(log), old(writes[0].id), ECANCELED)
                       else Given(old(log), old(writes[0].id), old(pump.rest)[0])
    {
      hide Flat, Queued, Carried, Distinct, Logged, Grown;
      GrownItself(log, writes, pump.AwaitingChunk?);
      if writes == [] {
        assert Logged(log, writes, false) by { EmptyLogged(log); }
        pump := Between;
        return;
      }
      HeadOf(log, writes, true);
      if reply == Rejected {
        FinishHead(if stopped then ECANCELED else EPIPE);
        pump := Between;
      } else if pump.AwaitingAttempt? {
        FinishHead(reply.status);
        pump := Between;
      } else {
        var rest := pump.rest;
        CloseSent();
        HeadOf(log, writes, true);
        if reply.status != Success {
          FinishHead(reply.status);
          pump := Between;
        } else {
          NextChunk(rest);
        }
      }
    }

    /** The descriptor the first write carries went with its first chunk. */
    method CloseSent()
      requires Valid() && pump.AwaitingChunk? && writes != []
      modifies this`writes, this`held
      ensures Valid() && writes == old(writes)[0 := old(writes)[0].(sent := None)]
    {
      hide Flat, Grown;
      if writes[0].sent.Some? {
        SentClosed(log, writes);
        held := held - {writes[0].sent.value};
        writes := writes[0 := writes[0].(sent := None)];
      }
    }

    /** EOF follows every accepted write: it is sent now only when nothing is queued. */
    method End() returns (status: Status)
      requires Valid()
      modifies this`writeEnded, this`pendingShutdown, this`shutdown
      ensures Valid()
      ensures status == if closing then EBADF else if old(writeEnded) then EPIPE else Success
      ensures status != Success ==> shutdown == old(shutdown)
      ensures status == Success ==> shutdown == if writes == [] then Submitted else Waiting
    {
      if closing || stopped {
        return EBADF;
      }
      if writeEnded {
        return EPIPE;
      }
      writeEnded := true;
      if writes == [] {
        shutdown := Submitted;
      } else {
        pendingShutdown, shutdown := true, Waiting;
      }
      return Success;
    }

    method Close()
      requires Valid()
      modifies this`closing
      ensures Valid() && closing
    {
      closing := true;
    }

    /** The owner is gone: every queued write and a waiting shutdown end cancelled, at once. */
    method OwnerStopped()
      requires Valid()
      modifies this
      ensures Valid() && Grown(old(log), log) && stopped && closing && writes == [] && held == {}
      ensures log.accepted == old(log.accepted) && log.given == old(log.given) && log.stream == old(log.stream)
      ensures |log.ends| == |old(log.ends)|
      ensures forall id :: 0 <= id < |old(log.ends)| && old(log.ends)[id] == None ==> log.ends[id] == Some(ECANCELED)
      ensures shutdown == if old(shutdown) == Waiting then Cancelled else old(shutdown)
    {
      hide Flat, Queued, Distinct, Carried, Logged, Grown;
      stopped, closing := true, true;
      LogEndsWith(log, writes, pump.AwaitingChunk?);
      CancelAll();
      FlushShutdown();
    }

    method CancelAll()
      requires limit > 0 && Logged(log, writes, true) && Ending() && Queue()
      modifies this`writes, this`writeQueueSize, this`held, this`log
      ensures Logged(log, [], false) && Logged(log, [], true) && Ending() && Queue() && Grown(old(log), log)
      ensures writes == [] && held == {}
      ensures log.accepted == old(log.accepted) && log.given == old(log.given) && log.stream == old(log.stream)
      ensures |log.ends| == |old(log.ends)|
      ensures forall id :: 0 <= id < |old(log.ends)| && old(log.ends)[id] == None ==> log.ends[id] == Some(ECANCELED)
    {
      hide Flat, Queued, Distinct, Logged, Grown;
      GrownItself(log, writes, true);
      while writes != []
        invariant Logged(log, writes, true) && Ending() && Queue() && Grown(old(log), log)
        invariant log.accepted == old(log.accepted) && log.given == old(log.given) && log.stream == old(log.stream)
        invariant |log.ends| == |old(log.ends)|
        invariant forall id :: 0 <= id < |old(log.ends)| && old(log.ends)[id] == None ==>
                    log.ends[id] == None || log.ends[id] == Some(ECANCELED)
        decreases |writes|
      {
        ghost var before := log;
        FinishHead(ECANCELED);
        GrownTwice(old(log), before, log);
      }
      LogEndsWith(log, writes, true);
    }
  }

  /** With nothing queued, every write has ended. */
  lemma LogEndsWith(l: Log, writes: seq<PendingWrite>, cutting: bool)
    requires Logged(l, writes, cutting)
    ensures Logged(l, writes, true)
    ensures writes == [] ==> Logged(l, [], false) && forall id :: 0 <= id < |l.ends| ==> l.ends[id] != None
  {
  }

  lemma EmptyLogged(l: Log)
    requires Logged(l, [], true)
    ensures Logged(l, [], false)
  {
  }

  lemma SentClosed(l: Log, writes: seq<PendingWrite>)
    requires Logged(l, writes, true) && writes != [] && writes[0].sent.Some? && Distinct(writes)
    ensures Logged(l, writes[0 := writes[0].(sent := None)], true)
    ensures Distinct(writes[0 := writes[0].(sent := None)])
    ensures Carried(writes[0 := writes[0].(sent := None)]) == Carried(writes) - {writes[0].sent.value}
    ensures Queued(writes[0 := writes[0].(sent := None)]) == Queued(writes)
  {
    hide Flat;
    var closed := writes[0 := writes[0].(sent := None)];
    CarriedHead(writes);
    CarriedHead(closed);
    QueuedHead(writes);
    QueuedHead(closed);
    assert closed[1..] == writes[1..];
  }

  // ------------------------------------------------------------------ what the log shows

  /**
   * While every write that ended succeeded, the owner has been given the accepted bytes in order and nothing else; with
   * nothing left queued, all of them.
   */
  lemma OwnerGetsWhatWasAccepted(l: Log, writes: seq<PendingWrite>, cutting: bool)
    requires Logged(l, writes, cutting)
    requires forall id :: 0 <= id < |l.ends| ==> l.ends[id] == None || l.ends[id] == Some(Success)
    ensures l.stream <= Flat(l.accepted)
    ensures writes == [] ==> l.stream == Flat(l.accepted)
  {
    var done := |l.accepted| - |writes|;
    assert l.given[..done] == l.accepted[..done];
    if writes == [] {
      assert l.given[..done] == l.given && l.accepted[..done] == l.accepted;
    } else {
      FlatEmpty(l.given[done + 1..]);
      Pieces(l.given, done);
      Pieces(l.accepted, done);
      assert l.given[done] <= l.accepted[done];
    }
  }

  lemma Pieces(parts: seq<Bytes>, k: nat)
    requires k < |parts|
    ensures Flat(parts) == Flat(parts[..k]) + (parts[k] + Flat(parts[k + 1..]))
  {
    FlatAppend(parts[..k], parts[k..]);
    assert parts == parts[..k] + parts[k..] && parts[k..][1..] == parts[k + 1..];
  }

  /** What was taken from a whole: a byte from each of these places, one after another and none of them twice. */
  predicate TakenAt(taken: Bytes, whole: Bytes, at: seq<nat>) {
    && |at| == |taken|
    && (forall k :: 0 <= k < |at| ==> at[k] < |whole| && taken[k] == whole[at[k]])
    && (forall i, k :: 0 <= i < k < |at| ==> at[i] < at[k])
  }

  ghost predicate TakenInOrder(taken: Bytes, whole: Bytes) {
    exists at :: TakenAt(taken, whole, at)
  }

  /** No byte is given twice, none out of order and none that was not accepted, however the writes ended. */
  lemma NothingGivenTwice(l: Log, writes: seq<PendingWrite>, cutting: bool)
    requires Logged(l, writes, cutting)
    ensures TakenInOrder(l.stream, Flat(l.accepted))
  {
    hide Flat;
    var at := Places(l.given, l.accepted);
  }

  /** The places in all that was accepted of the bytes given: a first part of each write. */
  lemma {:induction false} Places(given: seq<Bytes>, accepted: seq<Bytes>) returns (at: seq<nat>)
    requires |given| == |accepted| && forall id :: 0 <= id < |given| ==> given[id] <= accepted[id]
    ensures TakenAt(Flat(given), Flat(accepted), at)
  {
    if given == [] {
      at := [];
    } else {
      assert given[0] <= accepted[0];
      forall id | 0 <= id < |given[1..]| ensures given[1..][id] <= accepted[1..][id] {
        assert given[id + 1] <= accepted[id + 1];
      }
      var rest := Places(given[1..], accepted[1..]);
      at := PlacesJoin(given[0], accepted[0], Flat(given[1..]), Flat(accepted[1..]), rest);
    }
  }

  lemma PlacesJoin(first: Bytes, whole: Bytes, taken: Bytes, left: Bytes, rest: seq<nat>) returns (at: seq<nat>)
    requires first <= whole && TakenAt(taken, left, rest)
    ensures TakenAt(first + taken, whole + left, at)
  {
    at := seq(|first| + |rest|, k requires 0 <= k < |first| + |rest| =>
      if k < |first| then k else |whole| + rest[k - |first|]);
  }
}
