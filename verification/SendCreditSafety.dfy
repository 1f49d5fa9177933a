/** What holds of a connection end's send credit in every run. */
module SendCreditSafety {
  import opened Words
  import opened SendCredit

  function InFlight(flights: seq<Flight>): nat {
    if flights == [] then 0 else flights[0].n + InFlight(flights[1..])
  }

  lemma {:induction false} InFlightAppend(a: seq<Flight>, b: seq<Flight>)
    ensures InFlight(a + b) == InFlight(a) + InFlight(b)
  {
    if a == [] {
      assert a + b == b;
    } else {
      assert (a + b)[1..] == a[1..] + b;
      InFlightAppend(a[1..], b);
    }
  }

  lemma {:induction false} InFlightOut(flights: seq<Flight>, k: nat)
    requires k < |flights|
    ensures InFlight(flights) == flights[k].n + InFlight(flights[..k] + flights[k + 1..])
  {
    var rest := flights[..k] + flights[k + 1..];
    if k == 0 {
      assert rest == flights[1..];
    } else {
      InFlightOut(flights[1..], k - 1);
      assert rest[0] == flights[0];
      assert rest[1..] == flights[1..][..k - 1] + flights[1..][k..];
    }
  }

  /** All that may have been reserved by now: what was processed, and the peer queue's room. */
  function Room(o: Owner): int {
    o.written + o.maxQueued - o.queued
  }

  /** What a compare-exchange that is taken has to leave: the send buffer less what is queued, on its way, or went. */
  function RoomLeft(s: System): int {
    s.owner.maxQueued - s.owner.queued - InFlight(s.flights) - s.lost
  }

  /** The send buffer holds what is queued and all that is still to be. */
  predicate Bounded(s: System) {
    s.owner.queued + InFlight(s.flights) + s.lost <= s.owner.maxQueued
  }

  /** A compare-exchange is taken though the room that is really left is less. */
  predicate Overtakes(s: System, step: Step) {
    step.Exchange? && step.writer in s.attempts && Takes(s, step.writer) && s.attempts[step.writer].n > RoomLeft(s)
  }

  predicate OwnerOk(o: Owner) {
    && o.limitWord == Wrap(o.limit) && o.writtenWord == Wrap(o.written)
    && o.written <= o.limit <= Room(o)
  }

  predicate AttemptOk(s: System, a: Attempt) {
    && a.limitWord == Wrap(a.limit) && a.reservedWord == Wrap(a.reserved)
    && 0 < a.n <= s.chunk
    && a.limit <= Room(s.owner) && a.reserved <= s.reserved
    && -(s.owner.maxQueued as int) <= a.limit - a.reserved <= s.owner.maxQueued
  }

  predicate Inv(s: System) {
    && WindowOk(s.owner.maxQueued, s.chunk)
    && OwnerOk(s.owner)
    && s.reservedWord == Wrap(s.reserved)
    && s.reserved == s.owner.written + InFlight(s.flights) + s.lost
    && s.reserved <= Room(s.owner)
    && (forall w <- s.attempts :: AttemptOk(s, s.attempts[w]))
  }

  lemma StartsInv(s: System)
    requires Starts(s)
    ensures Inv(s)
  {
    assert Wrap(0) == 0;
    hide Wrap;
    var id, peer, queued: nat :| queued <= s.owner.maxQueued && s.owner == Opened(s.owner.maxQueued, id, peer, queued);
    PublishedOk(Owner(s.owner.maxQueued, 0, 0, 0, 0, {id}, peer, if peer then queued else 0));
  }

  /** The wrapped comparison is the true one: the counts are less than 2^31 apart. */
  lemma FitsIsTrue(limit: nat, reserved: nat, n: nat)
    requires -0x8000_0000 <= limit - reserved - n < 0x8000_0000
    ensures Fits(Wrap(limit), Wrap(reserved), n) <==> reserved + n <= limit
  {
    var ql, qr := limit / WORD, reserved / WORD;
    assert limit == ql * WORD + Wrap(limit) && reserved == qr * WORD + Wrap(reserved);
    var d := limit - reserved - n;
    var word := Wrap(limit) - (Wrap(reserved) + n);
    assert word == (qr - ql) * WORD + d;
    if d >= 0 {
      WrapUnique(word, qr - ql, d);
    } else {
      WrapUnique(word, qr - ql - 1, d + WORD);
    }
  }

  lemma PublishedOk(o: Owner)
    requires o.writtenWord == Wrap(o.written) && o.written <= Room(o)
    ensures OwnerOk(Published(o)) && Room(Published(o)) == Room(o)
  {
    WrapAdds(o.written, Free(o));
  }

  lemma PostedOk(o: Owner, id: nat, n: nat)
    requires OwnerOk(o) && (o.peer ==> o.queued + n <= o.maxQueued)
    ensures OwnerOk(Posted(o, id, n)) && Room(o) <= Room(Posted(o, id, n))
    ensures Posted(o, id, n).written == if id in o.holders then o.written + n else o.written
    ensures Posted(o, id, n).maxQueued == o.maxQueued
  {
    if id in o.holders {
      WrapAdds(o.written, n);
      var counted := o.(writtenWord := Wrap(o.writtenWord + n), written := o.written + n);
      PublishedOk(if o.peer then counted.(queued := o.queued + n) else counted);
    }
  }

  lemma UncreditedOk(o: Owner, id: nat)
    requires OwnerOk(o)
    ensures OwnerOk(Uncredited(o, id)) && Room(Uncredited(o, id)) == Room(o)
    ensures Uncredited(o, id).written == o.written && Uncredited(o, id).maxQueued == o.maxQueued
  {
    if id in o.holders && o.holders != {id} {
      PublishedOk(o.(holders := o.holders - {id}));
    }
  }

  /**
   * A compare-exchange finds the word it loaded exactly when a multiple of 2^32 was accepted in between. Where that is
   * none, it takes only room there is. Otherwise it takes room there is not exactly when the write is more than what is
   * really left, and that is exactly when the queue is no longer bounded.
   */
  lemma ExchangeOk(s: System, writer: nat)
    requires Inv(s) && writer in s.attempts
    ensures var a := s.attempts[writer]; s.reservedWord == a.reservedWord <==> (s.reserved - a.reserved) % WORD == 0
    ensures s.reserved < s.attempts[writer].reserved + WORD ==> !Overtakes(s, Exchange(writer))
    ensures Inv(Exchanged(s, writer)) <==> !Overtakes(s, Exchange(writer))
    ensures Bounded(Exchanged(s, writer)) <==> !Overtakes(s, Exchange(writer))
  {
    var a := s.attempts[writer];
    assert AttemptOk(s, a);
    SameWord(s.reserved, a.reserved);
    FitsIsTrue(a.limit, a.reserved, a.n);
    if s.reserved < a.reserved + WORD { WrapInjective(s.reserved, a.reserved); }
    WrapAdds(s.reserved, a.n);
    InFlightAppend(s.flights, [Flight(a.id, a.n)]);
    assert InFlight([Flight(a.id, a.n)]) == a.n by { assert [Flight(a.id, a.n)][1..] == []; }
    var next := Exchanged(s, writer);
    forall w | w in next.attempts ensures AttemptOk(next, next.attempts[w]) {
      assert AttemptOk(s, s.attempts[w]);
    }
  }

  lemma SameWord(a: nat, b: nat)
    requires b <= a
    ensures Wrap(a) == Wrap(b) <==> (a - b) % WORD == 0
  {
    var qa, qb := a / WORD, b / WORD;
    assert a == qa * WORD + Wrap(a) && b == qb * WORD + Wrap(b);
    if Wrap(a) >= Wrap(b) {
      WrapUnique(a - b, qa - qb, Wrap(a) - Wrap(b));
    } else {
      WrapUnique(a - b, qa - qb - 1, WORD + Wrap(a) - Wrap(b));
    }
  }

  /** An owner's step that takes no room away keeps every attempt's loads within it. */
  lemma OwnerSteps(s: System, next: System)
    requires Inv(s) && OwnerOk(next.owner) && Room(s.owner) <= Room(next.owner)
    requires next.chunk == s.chunk && next.owner.maxQueued == s.owner.maxQueued && next.attempts == s.attempts
    requires next.reserved == s.reserved && next.reservedWord == s.reservedWord
    requires next.reserved == next.owner.written + InFlight(next.flights) + next.lost
    ensures Inv(next)
  {
    forall w | w in next.attempts ensures AttemptOk(next, next.attempts[w]) {
      assert AttemptOk(s, s.attempts[w]);
    }
  }

  lemma DoOk(s: System, step: Step)
    requires Inv(s) && Enabled(s, step) && !Overtakes(s, step)
    ensures Inv(Do(s, step))
  {
    var next := Do(s, step);
    match step
    case Load(writer, id, n) =>
      forall w | w in next.attempts ensures AttemptOk(next, next.attempts[w]) {
        if w != writer { assert AttemptOk(s, s.attempts[w]); }
      }
    case Exchange(writer) => ExchangeOk(s, writer);
    case Post(k) =>
      InFlightOut(s.flights, k);
      PostedOk(s.owner, s.flights[k].id, s.flights[k].n);
      OwnerSteps(s, next);
    case Publish =>
      PublishedOk(s.owner);
      OwnerSteps(s, next);
    case Hold(id) =>
      PublishedOk(s.owner.(holders := s.owner.holders + {id}));
      OwnerSteps(s, next);
    case Uncredit(id) =>
      UncreditedOk(s.owner, id);
      OwnerSteps(s, next);
    case Read(_) => OwnerSteps(s, next);
    case PeerEnds => OwnerSteps(s, next);
  }

  // ------------------------------------------------------------------ every run

  /** No compare-exchange of the run takes room there is not. */
  predicate NoneOvertakes(s: System, steps: seq<Step>)
    decreases |steps|
  {
    steps != [] && Enabled(s, steps[0]) ==> !Overtakes(s, steps[0]) && NoneOvertakes(Do(s, steps[0]), steps[1..])
  }

  /** Every state of the run is bounded. */
  predicate AllBounded(s: System, steps: seq<Step>)
    decreases |steps|
  {
    Bounded(s) && (steps != [] && Enabled(s, steps[0]) ==> AllBounded(Do(s, steps[0]), steps[1..]))
  }

  /** Every compare-exchange comes before 2^32 bytes were accepted since its loads. */
  predicate WithinAWord(s: System, steps: seq<Step>)
    decreases |steps|
  {
    steps != [] && Enabled(s, steps[0]) ==>
      && (steps[0].Exchange? ==> s.reserved < s.attempts[steps[0].writer].reserved + WORD)
      && WithinAWord(Do(s, steps[0]), steps[1..])
  }

  lemma {:induction false} RunOk(s: System, steps: seq<Step>, end: System)
    requires Inv(s) && IsRun(s, steps, end) && NoneOvertakes(s, steps)
    ensures Inv(end)
    decreases |steps|
  {
    hide Inv, Overtakes, Enabled, Do;
    if steps != [] {
      DoOk(s, steps[0]);
      RunOk(Do(s, steps[0]), steps[1..], end);
    }
  }

  lemma {:induction false} BoundedUpTo(s: System, steps: seq<Step>, end: System)
    requires Inv(s) && IsRun(s, steps, end)
    ensures AllBounded(s, steps) <==> NoneOvertakes(s, steps)
    decreases |steps|
  {
    hide Inv, Overtakes, Enabled, Do, Bounded;
    InvIsBounded(s);
    if steps != [] {
      if Overtakes(s, steps[0]) {
        OvertakingOverfills(s, steps[0]);
      } else {
        DoOk(s, steps[0]);
        BoundedUpTo(Do(s, steps[0]), steps[1..], end);
      }
    }
  }

  lemma InvIsBounded(s: System)
    requires Inv(s)
    ensures Bounded(s)
  {
  }

  lemma OvertakingOverfills(s: System, step: Step)
    requires Inv(s) && Enabled(s, step) && Overtakes(s, step)
    ensures !Bounded(Do(s, step))
  {
    hide Inv, Takes, Bounded, Overtakes;
    OvertakesExchanges(s, step);
    ExchangeOk(s, step.writer);
  }

  lemma OvertakesExchanges(s: System, step: Step)
    requires Overtakes(s, step)
    ensures step.Exchange? && step == Exchange(step.writer)
  {
  }

  lemma {:induction false} WithinAWordNoneOvertakes(s: System, steps: seq<Step>, end: System)
    requires Inv(s) && IsRun(s, steps, end) && WithinAWord(s, steps)
    ensures NoneOvertakes(s, steps)
    decreases |steps|
  {
    hide Inv, Do;
    if steps != [] {
      if steps[0].Exchange? {
        ExchangeOk(s, steps[0].writer);
      }
      DoOk(s, steps[0]);
      WithinAWordNoneOvertakes(Do(s, steps[0]), steps[1..], end);
    }
  }

  /**
   * The peer's queue and everything still to be put in it stay within the send buffer in every state of a run exactly
   * when no compare-exchange of it takes more than is left on a word come round; and so wherever each one is made
   * before 2^32 bytes were accepted since its loads.
   */
  lemma QueueIsBounded(s: System, steps: seq<Step>, end: System)
    requires Starts(s) && IsRun(s, steps, end)
    ensures AllBounded(s, steps) <==> NoneOvertakes(s, steps)
    ensures WithinAWord(s, steps) ==> AllBounded(s, steps)
    ensures NoneOvertakes(s, steps) ==> end.owner.queued + InFlight(end.flights) + end.lost <= end.owner.maxQueued
  {
    hide Inv;
    StartsInv(s);
    BoundedUpTo(s, steps, end);
    if WithinAWord(s, steps) {
      WithinAWordNoneOvertakes(s, steps, end);
    }
    if NoneOvertakes(s, steps) {
      RunOk(s, steps, end);
      InvIsBounded(end);
    }
  }

  /** The counts that hold in every run, whatever is overtaken. */
  predicate Accounts(s: System) {
    && s.owner.writtenWord == Wrap(s.owner.written) && s.reservedWord == Wrap(s.reserved)
    && s.reserved == s.owner.written + InFlight(s.flights) + s.lost
  }

  lemma DoAccounts(s: System, step: Step)
    requires Accounts(s) && Enabled(s, step)
    ensures Accounts(Do(s, step))
  {
    hide Wrap;
    match step
    case Exchange(writer) =>
      var a := s.attempts[writer];
      WrapAdds(s.reserved, a.n);
      InFlightAppend(s.flights, [Flight(a.id, a.n)]);
      assert InFlight([Flight(a.id, a.n)]) == a.n by { assert [Flight(a.id, a.n)][1..] == []; }
    case Post(k) =>
      InFlightOut(s.flights, k);
      WrapAdds(s.owner.written, s.flights[k].n);
    case _ =>
  }

  lemma {:induction false} RunAccounts(s: System, steps: seq<Step>, end: System)
    requires Accounts(s) && IsRun(s, steps, end)
    ensures Accounts(end)
    decreases |steps|
  {
    hide Accounts, Enabled, Do;
    if steps != [] {
      DoAccounts(s, steps[0]);
      RunAccounts(Do(s, steps[0]), steps[1..], end);
    }
  }

  /** Every byte ever accepted was processed, is on its way, or went with its handle. */
  lemma ReservedIsAccountedFor(s: System, steps: seq<Step>, end: System)
    requires Starts(s) && IsRun(s, steps, end)
    ensures end.reserved == end.owner.written + InFlight(end.flights) + end.lost
    ensures end.reservedWord == Wrap(end.reserved)
  {
    StartsInv(s);
    RunAccounts(s, steps, end);
  }

  /** In every run, an attempt's wrapped comparison is that of the counts it loaded. */
  lemma ComparisonIsExact(s: System, steps: seq<Step>, end: System, writer: nat, a: Attempt)
    requires Starts(s) && IsRun(s, steps, end) && NoneOvertakes(s, steps)
    requires writer in end.attempts && end.attempts[writer] == a
    ensures Fits(a.limitWord, a.reservedWord, a.n) <==> a.reserved + a.n <= a.limit
  {
    StartsInv(s);
    RunOk(s, steps, end);
    assert AttemptOk(end, a);
    FitsIsTrue(a.limit, a.reserved, a.n);
  }

  /** Once published, what may still be reserved is the send buffer less what is queued, on its way, or went. */
  lemma PublishedRoomIsTheRoom(s: System, steps: seq<Step>, end: System)
    requires Starts(s) && IsRun(s, steps, end) && NoneOvertakes(s, steps) && end.owner.holders != {} && end.owner.peer
    ensures Published(end.owner).limit - end.reserved == RoomLeft(end)
  {
    StartsInv(s);
    RunOk(s, steps, end);
  }

  /** With no handle left nothing more fits, whatever is still on its way. */
  lemma ClosedAcceptsNothing(o: Owner, id: nat, reserved: nat, n: nat)
    requires OwnerOk(o) && o.holders == {id} && o.written <= reserved <= Room(o) && 0 < n
    requires WindowOk(o.maxQueued, n)
    ensures !Fits(Uncredited(o, id).limitWord, Wrap(reserved), n)
  {
    FitsIsTrue(o.written, reserved, n);
  }

  // ------------------------------------------------------------------ a run that overtakes

  const CHUNK := 0x2000_0000
  const STALE := Attempt(1, CHUNK, 2 * CHUNK, 0, 2 * CHUNK, 0)

  /** `k` whole chunks accepted, processed and read, and `left` more in the queue; process 0 has its loads. */
  function Settled(k: nat, left: nat, limit: nat): System
    requires left <= k
  {
    var written := k * CHUNK;
    System(Owner(2 * CHUNK, Wrap(limit), Wrap(written), limit, written, {1}, true, left * CHUNK),
           CHUNK, Wrap(written), written, [], 0, map[0 := STALE])
  }

  lemma {:induction false} RunsJoin(s: System, a: seq<Step>, middle: System, b: seq<Step>, end: System)
    requires IsRun(s, a, middle) && IsRun(middle, b, end)
    ensures IsRun(s, a + b, end)
    decreases |a|
  {
    hide Enabled, Do;
    if a == [] {
      assert a + b == b;
    } else {
      assert (a + b)[0] == a[0] && (a + b)[1..] == a[1..] + b;
      RunsJoin(Do(s, a[0]), a[1..], middle, b, end);
    }
  }

  const TAKE := [Load(1, 1, CHUNK), Exchange(1), Post(0)]

  /** Process 1 has a chunk accepted and processed where there is room for it. */
  lemma ChunkTaken(k: nat, left: nat, limit: nat)
    requires left <= 1 && left <= k && (k + 1) * CHUNK <= limit <= (k + 2 - left) * CHUNK
    ensures IsRun(Settled(k, left, limit), TAKE, Settled(k + 1, left + 1, (k + 1) * CHUNK + (1 - left) * CHUNK))
  {
    hide Wrap, Fits;
    var s := Settled(k, left, limit);
    FitsIsTrue(limit, k * CHUNK, CHUNK);
    WrapAdds(k * CHUNK, CHUNK);
    WrapAdds((k + 1) * CHUNK, (1 - left) * CHUNK);
    var s1 := Do(s, TAKE[0]);
    var s2 := Do(s1, TAKE[1]);
    assert s2.attempts == map[0 := STALE];
    assert s2.flights == [Flight(1, CHUNK)];
    var s3 := Do(s2, TAKE[2]);
    assert s3.flights == [];
    var end := Settled(k + 1, left + 1, (k + 1) * CHUNK + (1 - left) * CHUNK);
    assert (k + 1) * CHUNK == k * CHUNK + CHUNK;
    assert s3.owner == end.owner;
    assert s3 == end;
    assert TAKE[1..] == [TAKE[1], TAKE[2]] && TAKE[1..][1..] == [TAKE[2]];
    assert IsRun(s2, [TAKE[2]], s3) by { assert [TAKE[2]][1..] == []; }
    assert IsRun(s1, TAKE[1..], s3);
  }

  function Rounds(k: nat): seq<Step> {
    if k == 0 then [] else Rounds(k - 1) + (TAKE + [Read(CHUNK)])
  }

  /** The last limit published when `k` chunks have been processed and read. */
  function LimitAfter(k: nat): nat {
    if k == 0 then 2 * CHUNK else (k + 1) * CHUNK
  }

  /** Process 1 sends `k` chunks, each one read before the next. */
  lemma {:induction false} RoundsRun(k: nat)
    ensures IsRun(Settled(0, 0, LimitAfter(0)), Rounds(k), Settled(k, 0, LimitAfter(k)))
  {
    hide Enabled, Do, Settled;
    if k > 0 {
      RoundsRun(k - 1);
      ChunkTaken(k - 1, 0, LimitAfter(k - 1));
      assert k * CHUNK + CHUNK == LimitAfter(k);
      ChunkRead(k, LimitAfter(k));
      RunsJoin(Settled(k - 1, 0, LimitAfter(k - 1)), TAKE, Settled(k, 1, LimitAfter(k)), [Read(CHUNK)],
               Settled(k, 0, LimitAfter(k)));
      RunsJoin(Settled(0, 0, LimitAfter(0)), Rounds(k - 1), Settled(k - 1, 0, LimitAfter(k - 1)), TAKE + [Read(CHUNK)],
               Settled(k, 0, LimitAfter(k)));
    }
  }

  lemma ChunkRead(k: nat, limit: nat)
    requires k > 0
    ensures IsRun(Settled(k, 1, limit), [Read(CHUNK)], Settled(k, 0, limit))
  {
    hide Wrap;
    assert [Read(CHUNK)][1..] == [];
  }

  /** Up to its last step no more is queued than the buffer holds; that step is one word behind and takes a chunk more. */
  ghost predicate Overfills(s: System, steps: seq<Step>, before: System, writer: nat) {
    && Starts(s) && s.owner.maxQueued == 2 * CHUNK && IsRun(s, steps, before) && Bounded(before)
    && writer in before.attempts && before.reserved == before.attempts[writer].reserved + WORD
    && IsRun(s, steps + [Exchange(writer)], Exchanged(before, writer)) && !Bounded(Exchanged(before, writer))
  }

  /**
   * A run does overfill the queue: a process loads both words of a new end, 2^32 bytes are accepted, processed and all
   * but the last 2^30 read, and then its compare-exchange finds the word it loaded.
   */
  lemma AWholeWordBetween()
    ensures exists s, steps, before, writer :: Overfills(s, steps, before, writer)
  {
    hide Settled, IsRun, Do, Enabled, Exchanged, Bounded, Starts, Opened;
    var s := System(Opened(2 * CHUNK, 1, true, 0), CHUNK, 0, 0, [], 0, map[]);
    SameWindow(s);
    FirstLoad(s);
    var steps, before := ComesRound(s, [Load(0, 1, CHUNK)]);
    LastExchange(before);
    RunsJoin(s, steps, before, [Exchange(0)], Exchanged(before, 0));
    assert Overfills(s, steps, before, 0);
  }

  /** The 2^32 bytes: six chunks each read before the next, then two more that fill the queue. */
  lemma ComesRound(s: System, loads: seq<Step>) returns (steps: seq<Step>, end: System)
    requires IsRun(s, loads, Settled(0, 0, LimitAfter(0)))
    ensures IsRun(s, steps, end) && end == Settled(8, 2, 8 * CHUNK)
  {
    hide Settled, IsRun, Do, Enabled, Rounds, LimitAfter;
    RoundsRun(6);
    steps := JoinedTo(s, loads, Settled(0, 0, LimitAfter(0)), Rounds(6), Settled(6, 0, LimitAfter(6)));
    LimitIs(6);
    steps, end := Fills(s, steps, 6);
  }

  lemma LimitIs(k: nat)
    requires k > 0
    ensures LimitAfter(k) == (k + 1) * CHUNK
  {
  }

  lemma Fills(s: System, steps: seq<Step>, k: nat) returns (steps': seq<Step>, end: System)
    requires IsRun(s, steps, Settled(k, 0, (k + 1) * CHUNK))
    ensures IsRun(s, steps', end) && end == Settled(k + 2, 2, (k + 2) * CHUNK)
  {
    hide Settled, IsRun, Do, Enabled;
    ChunkTaken(k, 0, (k + 1) * CHUNK);
    var once := JoinedTo(s, steps, Settled(k, 0, (k + 1) * CHUNK), TAKE, Settled(k + 1, 1, (k + 2) * CHUNK));
    ChunkTaken(k + 1, 1, (k + 2) * CHUNK);
    end := Settled(k + 2, 2, (k + 2) * CHUNK);
    steps' := JoinedTo(s, once, Settled(k + 1, 1, (k + 2) * CHUNK), TAKE, end);
  }

  lemma JoinedTo(s: System, a: seq<Step>, middle: System, b: seq<Step>, end: System) returns (steps: seq<Step>)
    requires IsRun(s, a, middle) && IsRun(middle, b, end)
    ensures IsRun(s, steps, end)
  {
    RunsJoin(s, a, middle, b, end);
    steps := a + b;
  }

  lemma SameWindow(s: System)
    requires s == System(Opened(2 * CHUNK, 1, true, 0), CHUNK, 0, 0, [], 0, map[])
    ensures s.owner.maxQueued == 2 * CHUNK
  {
  }

  lemma FirstLoad(s: System)
    requires s == System(Opened(2 * CHUNK, 1, true, 0), CHUNK, 0, 0, [], 0, map[])
    ensures Starts(s) && IsRun(s, [Load(0, 1, CHUNK)], Settled(0, 0, LimitAfter(0)))
  {
    assert [Load(0, 1, CHUNK)][1..] == [];
    assert Do(s, Load(0, 1, CHUNK)) == Settled(0, 0, LimitAfter(0));
  }

  lemma LastExchange(s: System)
    requires s == Settled(8, 2, 8 * CHUNK)
    ensures Bounded(s) && 0 in s.attempts && s.reserved == s.attempts[0].reserved + WORD
    ensures IsRun(s, [Exchange(0)], Exchanged(s, 0)) && !Bounded(Exchanged(s, 0))
  {
    assert [Exchange(0)][1..] == [];
    assert [Flight(1, CHUNK)][1..] == [];
  }

  /** A handle given the word or taking its leave changes the holders alone, and what room is published of it. */
  lemma HoldersAre(s: System, id: nat)
    ensures Enabled(s, Hold(id)) ==>
      var o := Do(s, Hold(id)).owner;
      o.holders == s.owner.holders + {id} && o.written == s.owner.written && o.queued == s.owner.queued && o.limit == o.written + Free(o)
    ensures Enabled(s, Uncredit(id)) ==>
      var o := Do(s, Uncredit(id)).owner;
      o.holders == s.owner.holders - {id} && o.written == s.owner.written && o.queued == s.owner.queued && o.limit == o.written + Free(o)
  {
  }

  /** Once the peer is gone no room is ever published: whatever is posted, read or held after, the limit is the count. */
  lemma GonePeerHasNoRoom(s: System, step: Step)
    requires Enabled(s, step) && (step.PeerEnds? || !s.owner.peer)
    ensures var o := Do(s, step).owner;
      && !o.peer && (step.PeerEnds? ==> o.queued == 0) && Free(o) == 0
      && (step.Publish? || step.Hold? || step.Uncredit? || (step.Post? && s.flights[step.k].id in s.owner.holders) ==>
            o.limit == o.written)
  {
    hide Wrap, Signed;
  }
}
