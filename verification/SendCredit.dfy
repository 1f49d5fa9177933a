/**
 * A connection end's send credit: two shared words, LIMIT stored by the owner and RESERVED taken from by the processes
 * that hold the end, both counting bytes modulo 2^32. Beside each word stands the count it wraps.
 */
module SendCredit {
  import opened Words

  /** The owner's side. `holders`: the credited handles of the end still open. */
  datatype Owner = Owner(maxQueued: nat, limitWord: nat, writtenWord: nat, limit: nat, written: nat, holders: set<nat>,
                         peer: bool, queued: nat)

  function Free(o: Owner): nat {
    if o.holders != {} && o.peer && o.queued <= o.maxQueued then o.maxQueued - o.queued else 0
  }

  function Published(o: Owner): Owner {
    o.(limitWord := Wrap(o.writtenWord + Free(o)), limit := o.written + Free(o))
  }

  /** A credit-accepted write processed: it counts even when it fails. */
  function Posted(o: Owner, id: nat, n: nat): Owner {
    if id !in o.holders then o
    else
      var counted := o.(writtenWord := Wrap(o.writtenWord + n), written := o.written + n);
      Published(if o.peer then counted.(queued := o.queued + n) else counted)
  }

  function Uncredited(o: Owner, id: nat): Owner {
    if id !in o.holders then o
    else if o.holders == {id} then o.(holders := {}, limitWord := o.writtenWord, limit := o.written)
    else Published(o.(holders := o.holders - {id}))
  }

  function PeerRead(o: Owner, n: nat): Owner
    requires n <= o.queued
  {
    o.(queued := o.queued - n)
  }

  function PeerGone(o: Owner): Owner {
    o.(peer := false, queued := 0)
  }

  /** An end when its first descriptor is credited; one without a peer has nothing queued for it. */
  function Opened(maxQueued: nat, id: nat, peer: bool, queued: nat): Owner {
    Published(Owner(maxQueued, 0, 0, 0, 0, {id}, peer, if peer then queued else 0))
  }

  const SUCCESS := 0
  const EBADF := -9
  const EPIPE := -32
  const EINVAL := -22

  predicate WindowOk(maxQueued: nat, chunk: nat) {
    maxQueued + chunk < 0x8000_0000
  }

  /** The owner's record of an end. */
  class ConnectionEnd {
    const maxQueued: nat
    var limitWord: nat
    var writtenWord: nat
    var holders: set<nat>
    var peer: bool
    var queued: nat
    ghost var limit: nat
    ghost var written: nat

    ghost function View(): Owner
      reads this
    {
      Owner(maxQueued, limitWord, writtenWord, limit, written, holders, peer, queued)
    }

    /** The first credited descriptor of an end whose peer has `queued` bytes unread. */
    constructor (id: nat, maxQueued: nat, peer: bool, queued: nat)
      ensures View() == Opened(maxQueued, id, peer, queued)
    {
      this.maxQueued := maxQueued;
      this.peer, this.queued, holders := peer, if peer then queued else 0, {id};
      writtenWord, limitWord, limit, written := 0, 0, 0, 0;
      new;
      Publish();
    }

    method Publish()
      modifies this`limitWord, this`limit
      ensures View() == Published(old(View()))
    {
      var free := 0;
      if holders != {} && peer {
        free := if queued <= maxQueued then maxQueued - queued else 0;
      }
      limitWord, limit := Wrap(writtenWord + free), written + free;
    }

    /** A duplicate is given the end's own word; refused where the window and a chunk could pass 2^31. */
    method CreditWrites(id: nat, open: bool, chunk: nat) returns (status: int)
      modifies this
      ensures status == if !open then -9 else if id in old(holders) || maxQueued + chunk >= 0x8000_0000 then -22 else 0
      ensures View() == if status == 0 then Published(old(View()).(holders := old(holders) + {id})) else old(View())
    {
      if !open {
        return EBADF;
      }
      if id in holders || maxQueued + chunk >= 0x8000_0000 {
        return EINVAL;
      }
      holders := holders + {id};
      Publish();
      return SUCCESS;
    }

    method PostWrite(id: nat, n: nat) returns (status: int)
      modifies this
      ensures View() == Posted(old(View()), id, n)
      ensures status == if id !in old(holders) then -9 else if !old(peer) then -32 else 0
    {
      if id in holders {
        writtenWord, written := Wrap(writtenWord + n), written + n;
      }
      if id !in holders {
        status := EBADF;
      } else if !peer {
        status := EPIPE;
      } else {
        queued := queued + n;
        status := SUCCESS;
      }
      if id in holders {
        Publish();
      }
    }

    method Uncredit(id: nat)
      modifies this
      ensures View() == Uncredited(old(View()), id)
    {
      if id !in holders {
        return;
      }
      holders := holders - {id};
      if holders != {} {
        Publish();
        return;
      }
      limitWord, limit := writtenWord, written;
    }
  }

  // ------------------------------------------------------------------ the whole system

  /** A process's loads of the two words, for a write of `n` bytes through its handle. */
  datatype Attempt = Attempt(id: nat, n: nat, limitWord: nat, reservedWord: nat, limit: nat, reserved: nat)

  /** A write accepted and not yet processed. */
  datatype Flight = Flight(id: nat, n: nat)

  /** `lost`: bytes of writes whose handle went before they were processed. */
  datatype System = System(owner: Owner, chunk: nat, reservedWord: nat, reserved: nat, flights: seq<Flight>, lost: nat,
                           attempts: map<nat, Attempt>)

  datatype Step =
    | Load(writer: nat, id: nat, n: nat)
    | Exchange(writer: nat)
    | Post(k: nat)
    | Publish
    | Hold(id: nat)
    | Uncredit(id: nat)
    | Read(n: nat)
    | PeerEnds

  /** Whether a write fits: the sign of the words' difference. */
  predicate Fits(limitWord: int, reservedWord: int, n: nat) {
    Signed(limitWord - (reservedWord + n)) >= 0
  }

  predicate Enabled(s: System, step: Step) {
    match step
    case Load(writer, _, n) => writer !in s.attempts && 0 < n <= s.chunk
    case Exchange(writer) => writer in s.attempts
    case Post(k) => k < |s.flights|
    case Publish => s.owner.holders != {}
    case Hold(id) => id !in s.owner.holders && s.owner.holders != {}
    case Uncredit(id) => id in s.owner.holders
    case Read(n) => n <= s.owner.queued
    case PeerEnds => true
  }

  function Do(s: System, step: Step): System
    requires Enabled(s, step)
  {
    match step
    case Load(writer, id, n) =>
      var a := Attempt(id, n, s.owner.limitWord, s.reservedWord, s.owner.limit, s.reserved);
      s.(attempts := s.attempts[writer := a])
    case Exchange(writer) => Exchanged(s, writer)
    case Post(k) =>
      var f := s.flights[k];
      s.(owner := Posted(s.owner, f.id, f.n), flights := s.flights[..k] + s.flights[k + 1..],
         lost := if f.id in s.owner.holders then s.lost else s.lost + f.n)
    case Publish => s.(owner := Published(s.owner))
    case Hold(id) => s.(owner := Published(s.owner.(holders := s.owner.holders + {id})))
    case Uncredit(id) => s.(owner := Uncredited(s.owner, id))
    case Read(n) => s.(owner := PeerRead(s.owner, n))
    case PeerEnds => s.(owner := PeerGone(s.owner))
  }

  /** The write fits as loaded, and RESERVED is still the word loaded. */
  predicate Takes(s: System, writer: nat)
    requires writer in s.attempts
  {
    var a := s.attempts[writer];
    Fits(a.limitWord, a.reservedWord, a.n) && s.reservedWord == a.reservedWord
  }

  /** The compare-exchange of RESERVED: taken only where the word is still the one loaded. */
  function Exchanged(s: System, writer: nat): System
    requires writer in s.attempts
  {
    var a := s.attempts[writer];
    var tried := s.(attempts := s.attempts - {writer});
    if Takes(s, writer) then
      tried.(reservedWord := Wrap(s.reservedWord + a.n), reserved := s.reserved + a.n,
             flights := s.flights + [Flight(a.id, a.n)])
    else tried
  }

  /** A new word, both halves zero; the limits are refused where the window and a chunk could pass 2^31. */
  ghost predicate Starts(s: System) {
    && WindowOk(s.owner.maxQueued, s.chunk)
    && (exists id, peer, queued: nat :: queued <= s.owner.maxQueued && s.owner == Opened(s.owner.maxQueued, id, peer, queued))
    && s.reservedWord == 0 && s.reserved == 0 && s.flights == [] && s.lost == 0 && s.attempts == map[]
  }

  /** A run: every step enabled where it is taken. */
  predicate IsRun(s: System, steps: seq<Step>, end: System)
    decreases |steps|
  {
    if steps == [] then end == s else Enabled(s, steps[0]) && IsRun(Do(s, steps[0]), steps[1..], end)
  }
}
