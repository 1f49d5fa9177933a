/**
 * The page's registered ports and the service worker's copy of them: what the page posts, what the worker makes of it,
 * and the acknowledgement that the origin's root is a port's.
 */
module PortMapping {
  import opened Wrappers

  datatype Message = Registered(port: nat, primary: bool) | Unregistered(port: nat) | Check(id: nat, port: nat)

  datatype Reply = Ready(id: nat, port: nat, registered: bool, primary: bool)

  // ------------------------------------------------------------------ the worker

  /** What a host of the worker holds. */
  datatype View = View(ports: set<nat>, primary: Option<nat>)

  const EMPTY := View({}, None)

  function Apply(v: View, m: Message): View {
    match m
    case Registered(port, primary) =>
      View(v.ports + {port}, if primary then Some(port) else if v.primary == Some(port) then None else v.primary)
    case Unregistered(port) => View(v.ports - {port}, if v.primary == Some(port) then None else v.primary)
    case Check(_, _) => v
  }

  function Applied(v: View, ms: seq<Message>): View
    decreases |ms|
  {
    if ms == [] then v else Applied(Apply(v, ms[0]), ms[1..])
  }

  /** The worker's answer to a check. */
  function Answered(v: View, m: Message): seq<Reply> {
    if m.Check? then [Ready(m.id, m.port, m.port in v.ports, v.primary == Some(m.port))] else []
  }

  class WorkerHost {
    var registeredPorts: set<nat>
    var primaryPort: Option<nat>

    function Held(): View
      reads this
    {
      View(registeredPorts, primaryPort)
    }

    constructor ()
      ensures Held() == EMPTY
    {
      registeredPorts, primaryPort := {}, None;
    }

    method HandleMainMessage(m: Message) returns (replies: seq<Reply>)
      modifies this
      ensures Held() == Apply(old(Held()), m) && replies == Answered(old(Held()), m)
    {
      replies := [];
      match m {
        case Check(id, port) =>
          replies := [Ready(id, port, port in registeredPorts, primaryPort == Some(port))];
        case Registered(port, primary) =>
          registeredPorts := registeredPorts + {port};
          if primary {
            primaryPort := Some(port);
          } else if primaryPort == Some(port) {
            primaryPort := None;
          }
        case Unregistered(port) =>
          registeredPorts := registeredPorts - {port};
          if primaryPort == Some(port) {
            primaryPort := None;
          }
      }
    }
  }

  // ------------------------------------------------------------------ the page

  /** `waits`: the port each pending wait is for; `settled`: whether an ended one was resolved. */
  datatype Page = Page(servers: seq<nat>, primary: Option<nat>, ready: bool, waits: map<nat, nat>, nextId: nat,
                       settled: map<nat, bool>)

  function Shown(pg: Page): View {
    View((set p | p in pg.servers), pg.primary)
  }

  function Without(servers: seq<nat>, port: nat): seq<nat> {
    if servers == [] then []
    else (if servers[0] == port then [] else [servers[0]]) + Without(servers[1..], port)
  }

  function Sent(pg: Page, ms: seq<Message>): seq<Message> {
    if pg.ready then ms else []
  }

  /** The waits a change of the page's mapping ends. */
  function Rejected(pg: Page, ids: set<nat>): Page {
    pg.(waits := pg.waits - ids, settled := pg.settled + map id | id in ids :: false)
  }

  function Register(pg: Page, port: nat): (r: (Page, seq<Message>)) {
    (pg.(servers := if port in pg.servers then pg.servers else pg.servers + [port]),
     Sent(pg, [Registered(port, pg.primary == Some(port))]))
  }

  function Unregister(pg: Page, port: nat): (Page, seq<Message>) {
    var ended := Rejected(pg, set id | id in pg.waits && pg.waits[id] == port);
    (ended.(servers := Without(pg.servers, port), primary := if pg.primary == Some(port) then None else pg.primary),
     Sent(pg, [Unregistered(port)]))
  }

  function SetPrimary(pg: Page, port: Option<nat>): (Page, seq<Message>) {
    var ended := Rejected(pg, set id | id in pg.waits && Some(pg.waits[id]) != port);
    (ended.(primary := port),
     Sent(pg, (if pg.primary.Some? && pg.primary != port && pg.primary.value in pg.servers
               then [Registered(pg.primary.value, false)] else [])
              + (if port.Some? then [Registered(port.value, true)] else [])))
  }

  function Wait(pg: Page, port: nat): (Page, seq<Message>) {
    if !pg.ready || port !in pg.servers || pg.primary != Some(port) then (pg, [])
    else (pg.(waits := pg.waits[pg.nextId := port], nextId := pg.nextId + 1), [Check(pg.nextId, port)])
  }

  function Abort(pg: Page, id: nat): Page {
    if id in pg.waits then Rejected(pg, {id}) else pg
  }

  /** Every registration, told again to a worker that was (re)initialized. */
  function Announced(servers: seq<nat>, primary: Option<nat>): seq<Message> {
    if servers == [] then [] else [Registered(servers[0], primary == Some(servers[0]))] + Announced(servers[1..], primary)
  }

  /** Every wait still pending, asked again. */
  function Checks(waits: map<nat, nat>, from: nat, last: nat): seq<Message>
    requires from <= last
    decreases last - from
  {
    if from == last then []
    else (if from in waits then [Check(from, waits[from])] else []) + Checks(waits, from + 1, last)
  }

  function Reinit(pg: Page): (Page, seq<Message>) {
    (pg.(ready := true), Announced(pg.servers, pg.primary) + Checks(pg.waits, 0, pg.nextId))
  }

  /** A worker's answer, on the channel the page speaks on now. */
  function TakeReply(pg: Page, r: Reply): Page {
    if r.id !in pg.waits then pg
    else
      var port := pg.waits[r.id];
      var good := r.port == port && r.registered && r.primary && port in pg.servers && pg.primary == Some(port);
      pg.(waits := pg.waits - {r.id}, settled := pg.settled[r.id := good])
  }

  class PortBridge {
    var servers: seq<nat>
    var primaryPort: Option<nat>
    var ready: bool
    var waits: map<nat, nat>
    var nextId: nat
    var settled: map<nat, bool>

    function State(): Page
      reads this
    {
      Page(servers, primaryPort, ready, waits, nextId, settled)
    }

    constructor ()
      ensures State() == Page([], None, false, map[], 0, map[])
    {
      servers, primaryPort, ready, waits, nextId, settled := [], None, false, map[], 0, map[];
    }

    method RegisterServer(port: nat) returns (posted: seq<Message>)
      modifies this
      ensures (State(), posted) == Register(old(State()), port)
    {
      if port !in servers {
        servers := servers + [port];
      }
      posted := Notify([Registered(port, primaryPort == Some(port))]);
    }

    method Notify(ms: seq<Message>) returns (posted: seq<Message>)
      ensures posted == Sent(State(), ms)
    {
      posted := if ready then ms else [];
    }

    method Finish(ids: set<nat>)
      modifies this`waits, this`settled
      ensures State() == Rejected(old(State()), ids)
    {
      waits, settled := waits - ids, settled + map id | id in ids :: false;
    }

    method UnregisterServer(port: nat) returns (posted: seq<Message>)
      modifies this
      ensures (State(), posted) == Unregister(old(State()), port)
    {
      servers := Without(servers, port);
      Finish(set id | id in waits && waits[id] == port);
      if primaryPort == Some(port) {
        primaryPort := None;
      }
      posted := Notify([Unregistered(port)]);
    }

    method SetPrimaryPort(port: Option<nat>) returns (posted: seq<Message>)
      modifies this
      ensures (State(), posted) == SetPrimary(old(State()), port)
    {
      var previous := primaryPort;
      primaryPort := port;
      Finish(set id | id in waits && Some(waits[id]) != port);
      posted := [];
      if previous.Some? && previous != port && previous.value in servers {
        posted := Notify([Registered(previous.value, false)]);
      }
      if port.Some? {
        var more := Notify([Registered(port.value, true)]);
        posted := posted + more;
      }
      assert forall ms: seq<Message> :: ms + [] == ms && [] + ms == ms;
    }

    method WaitForPrimaryPortMapping(port: nat) returns (accepted: bool, posted: seq<Message>)
      modifies this
      ensures (State(), posted) == Wait(old(State()), port)
      ensures accepted <==> State() != old(State())
    {
      if !ready || port !in servers || primaryPort != Some(port) {
        return false, [];
      }
      posted := [Check(nextId, port)];
      waits, nextId := waits[nextId := port], nextId + 1;
      return true, posted;
    }

    /** The caller of a wait gives it up. */
    method AbortWait(id: nat)
      modifies this`waits, this`settled
      ensures State() == Abort(old(State()), id)
    {
      if id !in waits {
        return;
      }
      Finish({id});
    }

    method HandleReply(r: Reply, current: bool)
      modifies this
      ensures State() == if current then TakeReply(old(State()), r) else old(State())
    {
      if r.id !in waits || !current {
        return;
      }
      var port := waits[r.id];
      var good := r.port == port && r.registered && r.primary && port in servers && primaryPort == Some(port);
      waits, settled := waits - {r.id}, settled[r.id := good];
    }
  }

  // ------------------------------------------------------------------ both sides

  /** The page's current channel, as the worker has it: its `init` on the way, a host's, or nobody's. */
  datatype Link = Offered | Open(view: View) | Lost

  datatype System = System(page: Page, link: Link, queue: seq<Message>, replies: seq<Reply>)

  datatype Step =
    | DoRegister(port: nat)
    | DoUnregister(port: nat)
    | DoSetPrimary(choice: Option<nat>)
    | DoWait(port: nat)
    | DoAbort(id: nat)
    | Connect                                 // first or again: a new channel, its `init`, the announcement
    | TakeInit
    | Deliver
    | WorkerGone
    | TakeAnswer
    | StaleAnswer(r: Reply)                   // of an older channel

  predicate Enabled(s: System, step: Step) {
    match step
    // A primary is chosen among the registered ports.
    case DoSetPrimary(port) => port.None? || port.value in s.page.servers
    case TakeInit => s.link.Offered?
    case Deliver => s.link.Open? && s.queue != []
    case TakeAnswer => s.replies != []
    case _ => true
  }

  function Posting(s: System, r: (Page, seq<Message>)): System {
    s.(page := r.0, queue := s.queue + r.1)
  }

  function Do(s: System, step: Step): System
    requires Enabled(s, step)
  {
    match step
    case DoRegister(port) => Posting(s, Register(s.page, port))
    case DoUnregister(port) => Posting(s, Unregister(s.page, port))
    case DoSetPrimary(port) => Posting(s, SetPrimary(s.page, port))
    case DoWait(port) => Posting(s, Wait(s.page, port))
    case DoAbort(id) => s.(page := Abort(s.page, id))
    case Connect => System(Reinit(s.page).0, Offered, Reinit(s.page).1, [])
    case TakeInit => s.(link := Open(EMPTY))
    case Deliver =>
      s.(link := Open(Apply(s.link.view, s.queue[0])), queue := s.queue[1..],
         replies := s.replies + Answered(s.link.view, s.queue[0]))
    case WorkerGone => s.(link := Lost)
    case TakeAnswer => s.(page := TakeReply(s.page, s.replies[0]), replies := s.replies[1..])
    case StaleAnswer(_) => s
  }

  predicate Starts(s: System) {
    s == System(Page([], None, false, map[], 0, map[]), Lost, [], [])
  }

  predicate IsRun(s: System, steps: seq<Step>, end: System)
    decreases |steps|
  {
    if steps == [] then end == s else Enabled(s, steps[0]) && IsRun(Do(s, steps[0]), steps[1..], end)
  }
}
