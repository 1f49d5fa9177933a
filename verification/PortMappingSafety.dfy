/** The worker's copy of the page's ports, in every run. */
module PortMappingSafety {
  import opened Wrappers
  import opened PortMapping

  predicate Holds(v: View, port: nat) {
    port in v.ports && v.primary == Some(port)
  }

  /** What the worker starts the current channel's messages from. */
  function Base(link: Link): View {
    if link.Open? then link.view else EMPTY
  }

  /** From the check on, every view the worker comes to holds the mapping; a check not yet taken is on its way. */
  predicate Kept(v: View, queue: seq<Message>, id: nat, port: nat, asked: bool)
    decreases |queue|
  {
    if asked then Holds(v, port) && (queue != [] ==> Kept(Apply(v, queue[0]), queue[1..], id, port, true))
    else queue != [] && Kept(Apply(v, queue[0]), queue[1..], id, port, queue[0] == Check(id, port))
  }

  predicate HasReply(replies: seq<Reply>, id: nat) {
    exists r :: r in replies && r.id == id
  }

  predicate PageOk(pg: Page) {
    && (pg.primary.Some? ==> pg.primary.value in pg.servers)
    && (forall id <- pg.waits :: id < pg.nextId && id !in pg.settled && Holds(Shown(pg), pg.waits[id]))
    && (pg.waits != map[] ==> pg.ready)
    && (forall id <- pg.settled :: id < pg.nextId)
  }

  predicate MessagesOk(pg: Page, queue: seq<Message>) {
    forall m :: m in queue && m.Check? ==> m.id < pg.nextId && (m.id in pg.waits ==> m.port == pg.waits[m.id])
  }

  predicate RepliesOk(pg: Page, replies: seq<Reply>) {
    forall r :: r in replies ==> r.id < pg.nextId && (r.id in pg.waits ==> r == Ready(r.id, pg.waits[r.id], true, true))
  }

  predicate Inv(s: System) {
    && PageOk(s.page) && MessagesOk(s.page, s.queue) && RepliesOk(s.page, s.replies)
    && (s.page.ready && !s.link.Lost? ==> Applied(Base(s.link), s.queue) == Shown(s.page))
    && (!s.page.ready ==> s.link.Lost? && s.queue == [] && s.replies == [])
    && (!s.link.Lost? ==> forall id <- s.page.waits ::
          Kept(Base(s.link), s.queue, id, s.page.waits[id], HasReply(s.replies, id)))
    && (s.link.Offered? ==> s.replies == [])
  }

  // ------------------------------------------------------------------ messages in order

  lemma {:induction false} AppliedAppend(v: View, a: seq<Message>, b: seq<Message>)
    ensures Applied(v, a + b) == Applied(Applied(v, a), b)
    decreases |a|
  {
    if a == [] {
      assert a + b == b;
    } else {
      assert (a + b)[0] == a[0] && (a + b)[1..] == a[1..] + b;
      AppliedAppend(Apply(v, a[0]), a[1..], b);
    }
  }

  lemma AppliedOne(v: View, m: Message)
    ensures Applied(v, [m]) == Apply(v, m)
  {
    assert [m][1..] == [];
  }

  /** A message after which the mapping still holds keeps it held. */
  lemma {:induction false} KeptAppend(v: View, queue: seq<Message>, id: nat, port: nat, asked: bool, m: Message)
    requires Kept(v, queue, id, port, asked) && Holds(Applied(v, queue + [m]), port)
    ensures Kept(v, queue + [m], id, port, asked)
    decreases |queue|
  {
    var all := queue + [m];
    assert all[0] == if queue == [] then m else queue[0];
    assert all[1..] == if queue == [] then [] else queue[1..] + [m];
    if queue == [] {
      AppliedOne(v, m);
      assert queue + [m] == [m];
    } else {
      KeptAppend(Apply(v, queue[0]), queue[1..], id, port, asked || queue[0] == Check(id, port), m);
    }
  }

  /** A check at the end of what is on its way finds the mapping the page holds. */
  lemma {:induction false} KeptAsked(v: View, queue: seq<Message>, id: nat, port: nat)
    requires Holds(Applied(v, queue), port) && Check(id, port) !in queue
    ensures Kept(v, queue + [Check(id, port)], id, port, false)
    decreases |queue|
  {
    var all := queue + [Check(id, port)];
    assert all[0] == if queue == [] then Check(id, port) else queue[0];
    assert all[1..] == if queue == [] then [] else queue[1..] + [Check(id, port)];
    if queue != [] {
      KeptAsked(Apply(v, queue[0]), queue[1..], id, port);
    }
  }

  lemma {:induction false} KeptHolds(v: View, queue: seq<Message>, id: nat, port: nat, asked: bool)
    requires Kept(v, queue, id, port, asked)
    ensures Holds(Applied(v, queue), port)
    decreases |queue|
  {
    if queue != [] {
      KeptHolds(Apply(v, queue[0]), queue[1..], id, port, asked || queue[0] == Check(id, port));
    }
  }

  // ------------------------------------------------------------------ the page's own changes

  lemma {:induction false} WithoutIs(servers: seq<nat>, port: nat)
    ensures forall p :: p in Without(servers, port) <==> p in servers && p != port
  {
    if servers != [] {
      assert servers == [servers[0]] + servers[1..];
      WithoutIs(servers[1..], port);
    }
  }

  /** What a change of the page's own posts is that change, on the worker's copy. */
  lemma PostsTheChange(pg: Page, port: nat)
    requires PageOk(pg) && pg.ready
    ensures Applied(Shown(pg), Register(pg, port).1) == Shown(Register(pg, port).0)
    ensures Applied(Shown(pg), Unregister(pg, port).1) == Shown(Unregister(pg, port).0)
  {
    AppliedOne(Shown(pg), Registered(port, pg.primary == Some(port)));
    AppliedOne(Shown(pg), Unregistered(port));
    WithoutIs(pg.servers, port);
  }

  lemma PrimaryPostsTheChange(pg: Page, port: Option<nat>)
    requires PageOk(pg) && pg.ready && (port.Some? ==> port.value in pg.servers)
    ensures Applied(Shown(pg), SetPrimary(pg, port).1) == Shown(SetPrimary(pg, port).0)
  {
    var v := Shown(pg);
    var off := if pg.primary.Some? && pg.primary != port && pg.primary.value in pg.servers
               then [Registered(pg.primary.value, false)] else [];
    var on := if port.Some? then [Registered(port.value, true)] else [];
    AppliedAppend(v, off, on);
    if off != [] { AppliedOne(v, off[0]); }
    if on != [] { AppliedOne(Applied(v, off), on[0]); }
    assert v.ports + {} == v.ports;
  }

  /** A primary that is no registered port parts the two: the worker takes it for registered, the page does not. */
  lemma UnregisteredPrimaryParts(pg: Page, port: nat)
    requires PageOk(pg) && pg.ready
    ensures Applied(Shown(pg), SetPrimary(pg, Some(port)).1) == Shown(SetPrimary(pg, Some(port)).0) <==> port in pg.servers
  {
    if port in pg.servers {
      PrimaryPostsTheChange(pg, Some(port));
    } else {
      var v := Shown(pg);
      var off := if pg.primary.Some? && pg.primary != Some(port) && pg.primary.value in pg.servers
                 then [Registered(pg.primary.value, false)] else [];
      AppliedAppend(v, off, [Registered(port, true)]);
      AppliedOne(Applied(v, off), Registered(port, true));
    }
  }

  /** The announcement is the page's ports and primary, to a worker that holds none. */
  lemma {:induction false} AnnouncedFrom(v: View, servers: seq<nat>, primary: Option<nat>)
    requires v.primary.None? || v.primary == primary
    ensures Applied(v, Announced(servers, primary)).ports == v.ports + set p | p in servers
    ensures Applied(v, Announced(servers, primary)).primary
         == if primary.Some? && primary.value in servers then primary else v.primary
    decreases |servers|
  {
    if servers != [] {
      var m := Registered(servers[0], primary == Some(servers[0]));
      assert Announced(servers, primary)[0] == m && Announced(servers, primary)[1..] == Announced(servers[1..], primary);
      assert servers == [servers[0]] + servers[1..];
      AnnouncedFrom(Apply(v, m), servers[1..], primary);
    }
  }

  lemma {:induction false} AnnouncedAreNoChecks(servers: seq<nat>, primary: Option<nat>)
    ensures forall m <- Announced(servers, primary) :: m.Registered?
  {
    if servers != [] {
      AnnouncedAreNoChecks(servers[1..], primary);
    }
  }

  lemma {:induction false} ChecksAre(waits: map<nat, nat>, from: nat, last: nat)
    requires from <= last
    ensures forall m <- Checks(waits, from, last) :: m.Check? && from <= m.id < last && m.id in waits && m.port == waits[m.id]
    ensures forall id :: id in waits && from <= id < last ==> Check(id, waits[id]) in Checks(waits, from, last)
    decreases last - from
  {
    if from < last {
      ChecksAre(waits, from + 1, last);
    }
  }

  lemma {:induction false} ChecksChangeNothing(v: View, ms: seq<Message>)
    requires forall m <- ms :: m.Check?
    ensures Applied(v, ms) == v
    decreases |ms|
  {
    if ms != [] {
      assert ms[0] in ms;
      ChecksChangeNothing(v, ms[1..]);
    }
  }

  /** Among checks that change nothing, one's mapping is kept from it on. */
  lemma {:induction false} KeptAmongChecks(v: View, ms: seq<Message>, id: nat, port: nat, asked: bool)
    requires forall m <- ms :: m.Check?
    requires Holds(v, port) && (asked || Check(id, port) in ms)
    ensures Kept(v, ms, id, port, asked)
    decreases |ms|
  {
    if ms != [] {
      assert ms[0] in ms && ms == [ms[0]] + ms[1..];
      KeptAmongChecks(v, ms[1..], id, port, asked || ms[0] == Check(id, port));
    }
  }

  lemma {:induction false} KeptAfter(v: View, before: seq<Message>, ms: seq<Message>, id: nat, port: nat)
    requires Check(id, port) !in before && Kept(Applied(v, before), ms, id, port, false)
    ensures Kept(v, before + ms, id, port, false)
    decreases |before|
  {
    if before == [] {
      assert before + ms == ms;
    } else {
      assert (before + ms)[0] == before[0] && (before + ms)[1..] == before[1..] + ms;
      KeptAfter(Apply(v, before[0]), before[1..], ms, id, port);
    }
  }

  // ------------------------------------------------------------------ every step

  /** A change whose posts the worker's copy follows, and whose surviving waits the change leaves mapped. */
  lemma PostingOk(s: System, pg: Page, ms: seq<Message>)
    requires Inv(s) && PageOk(pg) && pg.ready == s.page.ready && pg.nextId == s.page.nextId
    requires |ms| <= 2 && (forall m <- ms :: !m.Check?) && (!pg.ready ==> ms == [])
    requires pg.ready ==> Applied(Shown(s.page), ms) == Shown(pg)
    requires forall id <- pg.waits :: id in s.page.waits && pg.waits[id] == s.page.waits[id]
    requires forall id <- pg.waits, k :: 0 <= k <= |ms| ==> Holds(Applied(Shown(s.page), ms[..k]), pg.waits[id])
    ensures Inv(s.(page := pg, queue := s.queue + ms))
  {
    if pg.ready && !s.link.Lost? {
      AppliedAppend(Base(s.link), s.queue, ms);
      forall id | id in pg.waits
        ensures Kept(Base(s.link), s.queue + ms, id, pg.waits[id], HasReply(s.replies, id))
      {
        KeptPosted(s, ms, id, HasReply(s.replies, id));
      }
    }
  }

  lemma {:induction false} KeptPosted(s: System, ms: seq<Message>, id: nat, asked: bool)
    requires |ms| <= 2 && id in s.page.waits && Kept(Base(s.link), s.queue, id, s.page.waits[id], asked)
    requires Applied(Base(s.link), s.queue) == Shown(s.page)
    requires forall k :: 0 <= k <= |ms| ==> Holds(Applied(Shown(s.page), ms[..k]), s.page.waits[id])
    ensures Kept(Base(s.link), s.queue + ms, id, s.page.waits[id], asked)
    decreases |ms|
  {
    if ms == [] {
      assert s.queue + ms == s.queue;
    } else {
      var front, last := ms[..|ms| - 1], ms[|ms| - 1];
      forall k | 0 <= k <= |front| ensures Holds(Applied(Shown(s.page), front[..k]), s.page.waits[id]) {
        assert front[..k] == ms[..k];
      }
      KeptPosted(s, front, id, asked);
      assert s.queue + ms == (s.queue + front) + [last];
      AppliedAppend(Base(s.link), s.queue, ms);
      assert ms[..|ms|] == ms;
      KeptAppend(Base(s.link), s.queue + front, id, s.page.waits[id], asked, last);
    }
  }

  lemma RegisterOk(s: System, port: nat)
    requires Inv(s)
    ensures Inv(Do(s, DoRegister(port)))
  {
    var (pg, ms) := Register(s.page, port);
    if s.page.ready { PostsTheChange(s.page, port); }
    forall id, k | id in pg.waits && 0 <= k <= |ms| ensures Holds(Applied(Shown(s.page), ms[..k]), pg.waits[id]) {
      assert k == |ms| ==> ms[..k] == ms;
    }
    PostingOk(s, pg, ms);
  }

  lemma UnregisterOk(s: System, port: nat)
    requires Inv(s)
    ensures Inv(Do(s, DoUnregister(port)))
  {
    var (pg, ms) := Unregister(s.page, port);
    WithoutIs(s.page.servers, port);
    if s.page.ready { PostsTheChange(s.page, port); }
    forall id, k | id in pg.waits && 0 <= k <= |ms| ensures Holds(Applied(Shown(s.page), ms[..k]), pg.waits[id]) {
      assert k == |ms| ==> ms[..k] == ms;
    }
    PostingOk(s, pg, ms);
  }

  lemma SetPrimaryOk(s: System, port: Option<nat>)
    requires Inv(s) && Enabled(s, DoSetPrimary(port))
    ensures Inv(Do(s, DoSetPrimary(port)))
  {
    var (pg, ms) := SetPrimary(s.page, port);
    if s.page.ready { PrimaryPostsTheChange(s.page, port); }
    forall id, k | id in pg.waits && 0 <= k <= |ms| ensures Holds(Applied(Shown(s.page), ms[..k]), pg.waits[id]) {
      assert Some(pg.waits[id]) == port == s.page.primary;
      assert k == |ms| ==> ms[..k] == ms;
    }
    PostingOk(s, pg, ms);
  }

  lemma WaitOk(s: System, port: nat)
    requires Inv(s)
    ensures Inv(Do(s, DoWait(port)))
  {
    var (pg, ms) := Wait(s.page, port);
    if ms == [] {
      assert s.queue + ms == s.queue;
    } else {
      var check := Check(s.page.nextId, port);
      var queue := s.queue + [check];
      if !s.link.Lost? {
        AppliedAppend(Base(s.link), s.queue, [check]);
        AppliedOne(Shown(s.page), check);
        assert check !in s.queue;
        KeptAsked(Base(s.link), s.queue, s.page.nextId, port);
        assert !HasReply(s.replies, s.page.nextId);
        forall id | id in s.page.waits ensures Kept(Base(s.link), queue, id, s.page.waits[id], HasReply(s.replies, id)) {
          KeptAppend(Base(s.link), s.queue, id, s.page.waits[id], HasReply(s.replies, id), check);
        }
      }
    }
  }

  lemma ConnectOk(s: System)
    requires Inv(s)
    ensures Inv(Do(s, Connect))
  {
    var pg := s.page;
    var announced, checks := Announced(pg.servers, pg.primary), Checks(pg.waits, 0, pg.nextId);
    AnnouncedFrom(EMPTY, pg.servers, pg.primary);
    AnnouncedAreNoChecks(pg.servers, pg.primary);
    ChecksAre(pg.waits, 0, pg.nextId);
    AppliedAppend(EMPTY, announced, checks);
    ChecksChangeNothing(Shown(pg), checks);
    assert Applied(EMPTY, announced) == Shown(pg);
    forall id | id in pg.waits ensures Kept(EMPTY, announced + checks, id, pg.waits[id], false) {
      KeptAmongChecks(Shown(pg), checks, id, pg.waits[id], false);
      KeptAfter(EMPTY, announced, checks, id, pg.waits[id]);
    }
    assert forall id :: !HasReply([], id);
  }

  lemma DeliverOk(s: System)
    requires Inv(s) && Enabled(s, Deliver)
    ensures Inv(Do(s, Deliver))
  {
    var m, view := s.queue[0], s.link.view;
    var next := Do(s, Deliver);
    assert m in s.queue;
    forall id | id in s.page.waits
      ensures Kept(next.link.view, next.queue, id, s.page.waits[id], HasReply(next.replies, id))
      ensures m.Check? && m.id == id ==> Answered(view, m) == [Ready(id, s.page.waits[id], true, true)]
    {
      var port := s.page.waits[id];
      assert Kept(view, s.queue, id, port, HasReply(s.replies, id));
      if m == Check(id, port) {
        assert Answered(view, m)[0] in next.replies;
      } else {
        forall r | r in next.replies && r.id == id ensures HasReply(s.replies, id) {
        }
        assert HasReply(s.replies, id) ==> HasReply(next.replies, id) by {
          if HasReply(s.replies, id) {
            var r :| r in s.replies && r.id == id;
            assert r in next.replies;
          }
        }
      }
    }
  }

  lemma AnswerOk(s: System)
    requires Inv(s) && Enabled(s, TakeAnswer)
    ensures Inv(Do(s, TakeAnswer))
  {
    var r := s.replies[0];
    var next := Do(s, TakeAnswer);
    assert r in s.replies && s.replies == [r] + next.replies;
    forall id | id in next.page.waits ensures HasReply(next.replies, id) <==> HasReply(s.replies, id) {
      if HasReply(s.replies, id) {
        var found :| found in s.replies && found.id == id;
        assert found in next.replies;
      }
    }
  }

  lemma DoOk(s: System, step: Step)
    requires Inv(s) && Enabled(s, step)
    ensures Inv(Do(s, step))
  {
    match step
    case DoRegister(port) => RegisterOk(s, port);
    case DoUnregister(port) => UnregisterOk(s, port);
    case DoSetPrimary(port) => SetPrimaryOk(s, port);
    case DoWait(port) => WaitOk(s, port);
    case DoAbort(id) =>
    case Connect => ConnectOk(s);
    case TakeInit =>
    case Deliver => DeliverOk(s);
    case WorkerGone =>
    case TakeAnswer => AnswerOk(s);
    case StaleAnswer(_) =>
  }

  lemma {:induction false} RunOk(s: System, steps: seq<Step>, end: System)
    requires Inv(s) && IsRun(s, steps, end)
    ensures Inv(end)
    decreases |steps|
  {
    if steps != [] {
      DoOk(s, steps[0]);
      RunOk(Do(s, steps[0]), steps[1..], end);
    }
  }

  // ------------------------------------------------------------------ every run

  /** What the worker holds, with what is on its way to it applied, is what the page holds, over any reconnects. */
  lemma WorkerFollowsPage(s: System, steps: seq<Step>, end: System)
    requires Starts(s) && IsRun(s, steps, end) && end.link.Open?
    ensures Applied(end.link.view, end.queue) == Shown(end.page)
  {
    RunOk(s, steps, end);
  }

  /** A wait an answer ends is resolved, and then both sides hold the mapping it was for. */
  lemma AnswerMeansMapped(s: System, steps: seq<Step>, end: System, id: nat)
    requires Starts(s) && IsRun(s, steps, end) && end.replies != [] && end.replies[0].id == id
    requires id in end.page.waits
    ensures Do(end, TakeAnswer).page.settled == end.page.settled[id := true]
    ensures Holds(Shown(Do(end, TakeAnswer).page), end.page.waits[id])
    ensures end.link.Open? ==> Holds(end.link.view, end.page.waits[id])
  {
    RunOk(s, steps, end);
    assert end.replies[0] in end.replies;
  }

  /** Every wait ends at most once, and how it ended does not change. */
  lemma {:induction false} SettledOnce(s: System, steps: seq<Step>, end: System, id: nat)
    requires Inv(s) && IsRun(s, steps, end) && id in s.page.settled
    ensures id in end.page.settled && end.page.settled[id] == s.page.settled[id]
    decreases |steps|
  {
    if steps != [] {
      DoOk(s, steps[0]);
      if steps[0] == TakeAnswer { assert s.replies[0] in s.replies; }
      SettledOnce(Do(s, steps[0]), steps[1..], end, id);
    }
  }

  /** A wait kept and not answered has its check in the queue. */
  lemma {:induction false} KeptIsAsked(v: View, queue: seq<Message>, id: nat, port: nat)
    requires Kept(v, queue, id, port, false)
    ensures Check(id, port) in queue
    decreases |queue|
  {
    if queue[0] != Check(id, port) {
      KeptIsAsked(Apply(v, queue[0]), queue[1..], id, port);
    }
  }

  /** While the worker lives, a wait still pending has its own answer on the way, or its own check of its own port. */
  lemma NoWaitIsForgotten(s: System, steps: seq<Step>, end: System, id: nat)
    requires Starts(s) && IsRun(s, steps, end) && id in end.page.waits && !end.link.Lost?
    ensures HasReply(end.replies, id) || Check(id, end.page.waits[id]) in end.queue
  {
    RunOk(s, steps, end);
    if !HasReply(end.replies, id) {
      KeptIsAsked(Base(end.link), end.queue, id, end.page.waits[id]);
    }
  }

  /** Everything posted so far is taken by the worker. */
  function AllDelivered(s: System): System
    requires s.link.Open?
    decreases |s.queue|
  {
    if s.queue == [] then s else AllDelivered(Do(s, Deliver))
  }

  lemma {:induction false} DeliveredIs(s: System)
    requires Inv(s) && s.link.Open?
    ensures var t := AllDelivered(s);
      && Inv(t) && t.link.Open? && t.queue == [] && t.page == s.page && s.replies <= t.replies
      && t.link.view == Applied(s.link.view, s.queue)
    decreases |s.queue|
  {
    hide Inv, Answered, Apply;
    if s.queue != [] {
      DeliverOk(s);
      DeliveredIs(Do(s, Deliver));
    }
  }

  /**
   * In any run, once the worker has taken a channel's init and everything posted on it, it holds what the page does, and
   * has answered every wait still pending.
   */
  lemma WorkerCatchesUp(s: System, steps: seq<Step>, end: System)
    requires Starts(s) && IsRun(s, steps, end) && !end.link.Lost?
    ensures var begun := if end.link.Offered? then Do(end, TakeInit) else end;
      && begun.link.Open?
      && AllDelivered(begun).link == Open(Shown(end.page))
      && forall id <- end.page.waits :: HasReply(AllDelivered(begun).replies, id)
  {
    RunOk(s, steps, end);
    var begun := if end.link.Offered? then Do(end, TakeInit) else end;
    if end.link.Offered? { DoOk(end, TakeInit); }
    DeliveredIs(begun);
    var t := AllDelivered(begun);
    forall id | id in end.page.waits ensures HasReply(t.replies, id) {
      assert Kept(t.link.view, [], id, t.page.waits[id], HasReply(t.replies, id));
    }
  }

  /** A wait given up, and no other, ends unresolved; a worker that goes takes its channel with it. */
  lemma GivenUp(s: System, id: nat)
    requires Inv(s) && id in s.page.waits
    ensures var t := Do(s, DoAbort(id));
      && t.page.waits == s.page.waits - {id} && t.page.settled == s.page.settled[id := false]
      && t.queue == s.queue && t.replies == s.replies && t.link == s.link
    ensures Do(s, WorkerGone).link.Lost? && Do(s, WorkerGone).page == s.page
  {
    var gone := {id};
    assert s.page.settled + (map k | k in gone :: false) == s.page.settled[id := false];
  }
}
