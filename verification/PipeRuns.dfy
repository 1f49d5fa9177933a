/** A process's end of a pipe over a whole life: calls, owner's answers and the pump, in any order. */
module PipeRuns {
  import opened Wrappers
  import opened WriteChunks
  import opened PipeDriver

  /** `sends`: whether a descriptor goes with the write. One that cannot happen where it stands does nothing. */
  datatype Event =
    | Writes(parts: seq<Bytes>, sends: bool, attempt: Attempt)
    | Pumps
    | Answers(reply: Reply)
    | Ends
    | Closes
    | OwnerStops

  /** The process or the owner has ended the writing side. */
  predicate Over(events: seq<Event>) {
    exists e :: e in events && (e.Ends? || e.Closes? || e.OwnerStops?)
  }

  /** What the calls alone say was accepted: every write of any bytes before the end. */
  function AcceptedBy(events: seq<Event>): seq<Bytes> {
    if events == [] then []
    else
      var before, e := events[..|events| - 1], events[|events| - 1];
      AcceptedBy(before) + if e.Writes? && !Over(before) && Flat(e.parts) != [] then [Flat(e.parts)] else []
  }

  predicate AllSucceeded(ends: seq<Option<Status>>) {
    forall id :: 0 <= id < |ends| ==> ends[id] == None || ends[id] == Some(Success)
  }

  /** There is always a number no open descriptor has. */
  lemma {:induction false} NumberLeft(held: set<nat>) returns (n: nat)
    ensures n !in held && forall h <- held :: h < n
  {
    n := 0;
    if h :| h in held {
      var rest := NumberLeft(held - {h});
      n := if rest <= h then h + 1 else rest;
      forall x <- held ensures x < n {
        if x != h { assert x in held - {h}; }
      }
    }
  }

  /** One event. Once EOF was sent, nothing more is given to the owner. */
  method Step(d: NativeStreamDriver, e: Event)
    requires d.Valid()
    modifies d
    ensures d.Valid() && Grown(old(d.log), d.log)
    ensures (d.closing || d.writeEnded) == (old(d.closing || d.writeEnded) || e.Ends? || e.Closes? || e.OwnerStops?)
    ensures d.log.accepted == old(d.log.accepted)
              + if e.Writes? && !old(d.closing || d.writeEnded) && Flat(e.parts) != [] then [Flat(e.parts)] else []
    ensures old(d.shutdown) == Submitted ==> d.shutdown == Submitted && d.log.stream == old(d.log.stream)
  {
    hide Flat, Queued, Carried, Distinct, Logged, Grown;
    GrownItself(d.log, d.writes, d.pump.AwaitingChunk?);
    match e
    case Writes(parts, sends, attempt) =>
      ghost var left := NumberLeft(d.held);
      var sent := None;
      if sends {
        assert left !in d.held;
        var number: nat :| number !in d.held;
        sent := Some(number);
      }
      var status, async := d.Write(parts, sent, attempt);
    case Pumps =>
      if d.pump == Between {
        d.RunPump();
      }
    case Answers(reply) =>
      if d.pump.AwaitingAttempt? || d.pump.AwaitingChunk? {
        d.Resume(reply);
      }
    case Ends =>
      var status := d.End();
    case Closes => d.Close();
    case OwnerStops => d.OwnerStopped();
  }

  /**
   * What the owner has been given after any run of events, against the calls alone: bytes the accepted writes have, in
   * their order and none twice; a first part of all of them while no write failed, and all of them once nothing is
   * queued or EOF was sent.
   */
  method Drive(limit: nat, events: seq<Event>) returns (d: NativeStreamDriver)
    requires limit > 0
    ensures fresh(d) && d.Valid() && d.log.accepted == AcceptedBy(events)
    ensures TakenInOrder(d.log.stream, Flat(AcceptedBy(events)))
    ensures AllSucceeded(d.log.ends) ==> d.log.stream <= Flat(AcceptedBy(events))
    ensures AllSucceeded(d.log.ends) && (d.writes == [] || d.shutdown == Submitted) ==>
              d.log.stream == Flat(AcceptedBy(events))
  {
    hide Flat, Queued, Carried, Distinct, Logged, Grown;
    d := new NativeStreamDriver(limit);
    for k := 0 to |events|
      invariant fresh(d) && d.Valid()
      invariant d.log.accepted == AcceptedBy(events[..k])
      invariant (d.closing || d.writeEnded) == Over(events[..k])
    {
      assert events[..k + 1] == events[..k] + [events[k]];
      assert events[..k + 1][..k] == events[..k];
      Step(d, events[k]);
    }
    assert events[..|events|] == events;
    NothingGivenTwice(d.log, d.writes, d.pump.AwaitingChunk?);
    if AllSucceeded(d.log.ends) {
      OwnerGetsWhatWasAccepted(d.log, d.writes, d.pump.AwaitingChunk?);
    }
  }
}
