/**
 * The engine's own process registry: one owner's numbers and live table, and the scopes that allocate, claim, publish,
 * forget and close over them.
 */
module ProcessRegistry {
  import opened Wrappers

  const MAX_PID := 0x7fff_ffff

  datatype Identity = Identity(pid: int, ppid: int, pgid: Option<int>)

  datatype Run = Run(token: string, identity: Identity)

  /** One realm's registrations. */
  datatype Scope = Scope(numbers: set<int>, claimed: set<int>, runs: seq<Run>, disposed: bool)

  const DISPOSED := Scope({}, {}, [], true)

  datatype Error =
    | Closed | Exhausted | Unanswered | InvalidPid | AlreadyHeld | NotOwned | InvalidParent | ForeignParent
    | GroupChanged | InvalidGroup

  /** The first of an allocator's answers that nobody holds. */
  ghost predicate FirstFree(answers: seq<int>, held: set<int>, pid: int) {
    exists k :: 0 <= k < |answers| && answers[k] == pid && pid !in held && forall j :: 0 <= j < k ==> answers[j] in held
  }

  predicate IsPid(pid: int) {
    2 <= pid <= MAX_PID
  }

  function OfToken(runs: seq<Run>, token: string): (found: Option<Identity>)
    ensures found.Some? ==> Run(token, found.value) in runs
    ensures found.None? ==> forall r <- runs :: r.token != token
  {
    if runs == [] then None
    else if runs[0].token == token then Some(runs[0].identity) else OfToken(runs[1..], token)
  }

  function OfPid(runs: seq<Run>, pid: int): (found: Option<Identity>)
    ensures found.Some? ==> found.value.pid == pid && exists r :: r in runs && r.identity == found.value
    ensures found.None? ==> forall r <- runs :: r.identity.pid != pid
  {
    if runs == [] then None
    else if runs[0].identity.pid == pid then Some(runs[0].identity) else OfPid(runs[1..], pid)
  }

  function WithoutToken(runs: seq<Run>, token: string): seq<Run> {
    if runs == [] then []
    else (if runs[0].token == token then [] else [runs[0]]) + WithoutToken(runs[1..], token)
  }

  lemma {:induction false} WithoutTokenIs(runs: seq<Run>, token: string)
    ensures forall r :: r in WithoutToken(runs, token) <==> r in runs && r.token != token
  {
    if runs != [] {
      assert runs == [runs[0]] + runs[1..];
      WithoutTokenIs(runs[1..], token);
    }
  }

  /** One run a token, one run a process. */
  predicate ScopeOk(s: Scope) {
    && (s.disposed ==> s == DISPOSED)
    && s.claimed <= s.numbers
    && (forall r <- s.runs :: r.identity.pid in s.numbers)
    && (forall q, r :: q in s.runs && r in s.runs && (q.token == r.token || q.identity.pid == r.identity.pid) ==> q == r)
  }

  /** Every number held is one scope's, and a scope's numbers are held. */
  ghost predicate Owned(owner: map<int, nat>, held: set<int>, scopes: seq<Scope>) {
    && owner.Keys == held
    && (forall p <- owner :: owner[p] < |scopes| && IsPid(p))
    && (forall i, p {:trigger p in scopes[i].numbers} :: 0 <= i < |scopes| ==>
          (p in scopes[i].numbers <==> p in owner && owner[p] == i))
  }

  /** A scope's runs are live, and answer there. */
  ghost predicate RunsListed(runs: seq<Run>, i: nat, live: map<int, Identity>, receivers: map<int, nat>) {
    forall r <- runs :: r.identity.pid in live && live[r.identity.pid] == r.identity
                        && r.identity.pid in receivers && receivers[r.identity.pid] == i
  }

  /** Every live process is a run of the scope that holds its number, and the other way round. */
  ghost predicate Listed(owner: map<int, nat>, live: map<int, Identity>, receivers: map<int, nat>, scopes: seq<Scope>) {
    live.Keys == receivers.Keys <= owner.Keys && TableOk(owner, live, receivers, scopes) && RunsOk(live, receivers, scopes)
  }

  ghost predicate TableOk(owner: map<int, nat>, live: map<int, Identity>, receivers: map<int, nat>, scopes: seq<Scope>) {
    forall p <- live :: p in owner && owner[p] < |scopes| && p in receivers && receivers[p] == owner[p]
                        && OfPid(scopes[owner[p]].runs, p) == Some(live[p])
  }

  ghost predicate RunsOk(live: map<int, Identity>, receivers: map<int, nat>, scopes: seq<Scope>) {
    forall i :: 0 <= i < |scopes| ==> RunsListed(scopes[i].runs, i, live, receivers)
  }

  ghost predicate ScopesOk(scopes: seq<Scope>) {
    forall i :: 0 <= i < |scopes| ==> ScopeOk(scopes[i])
  }

  lemma {:induction false} OfPidAppend(runs: seq<Run>, run: Run, p: int)
    ensures OfPid(runs + [run], p)
         == if OfPid(runs, p).Some? then OfPid(runs, p) else if run.identity.pid == p then Some(run.identity) else None
  {
    if runs == [] {
      assert runs + [run] == [run] && [run][1..] == [];
    } else {
      assert (runs + [run])[0] == runs[0] && (runs + [run])[1..] == runs[1..] + [run];
      OfPidAppend(runs[1..], run, p);
    }
  }

  lemma {:induction false} OfPidWithout(runs: seq<Run>, token: string, p: int)
    requires forall r <- runs :: r.token == token ==> r.identity.pid != p
    ensures OfPid(WithoutToken(runs, token), p) == OfPid(runs, p)
  {
    if runs != [] {
      assert runs == [runs[0]] + runs[1..];
      OfPidWithout(runs[1..], token, p);
      var rest := WithoutToken(runs[1..], token);
      assert ([runs[0]] + rest)[1..] == rest && [] + rest == rest;
    }
  }

  class ProcessRegistryOwner {
    var nextPid: int
    var held: set<int>
    var live: map<int, Identity>
    var receivers: map<int, nat>
    var scopes: seq<Scope>
    /** The scope each held number is of. */
    ghost var owner: map<int, nat>

    ghost predicate Valid()
      reads this
    {
      && nextPid >= 2
      && ScopesOk(scopes)
      && Owned(owner, held, scopes)
      && Listed(owner, live, receivers, scopes)
    }

    constructor (start: int)
      requires 1000 <= start < 31000
      ensures Valid() && scopes == [] && held == {} && live == map[]
    {
      nextPid, held, live, receivers, scopes, owner := start, {}, map[], map[], [], map[];
    }

    method CreateScope() returns (i: nat)
      requires Valid()
      modifies this`scopes
      ensures Valid() && i == |old(scopes)| && scopes == old(scopes) + [Scope({}, {}, [], false)]
    {
      i := |scopes|;
      scopes := scopes + [Scope({}, {}, [], false)];
    }

    /** A number for a scope, taken from an installed allocator's answers or from the counter; one still held is passed. */
    method Allocate(i: nat, allocator: Option<seq<int>>) returns (r: Result<int, Error>)
      requires Valid() && i < |scopes|
      modifies this
      ensures Valid() && live == old(live) && receivers == old(receivers)
      ensures old(scopes)[i].disposed ==> r == Err(Closed)
      ensures r.Ok? ==> IsPid(r.value) && r.value !in old(held) && held == old(held) + {r.value}
      ensures r.Ok? ==> scopes == old(scopes)[i := old(scopes)[i].(numbers := old(scopes)[i].numbers + {r.value})]
      ensures r.Err? ==> held == old(held) && scopes == old(scopes)
      ensures allocator.None? && r == Err(Exhausted) ==> forall p :: old(nextPid) <= p <= 0x7fff_ffff ==> p in old(held)
      // The counter's next number not held, or the allocator's first.
      ensures allocator.None? && r.Ok? ==>
                old(nextPid) <= r.value < nextPid && forall p :: old(nextPid) <= p < r.value ==> p in old(held)
      ensures allocator.Some? ==> nextPid == old(nextPid)
      ensures allocator.Some? && r.Ok? ==> FirstFree(allocator.value, old(held), r.value)
      ensures allocator.Some? && r == Err(Unanswered) ==> forall p <- allocator.value :: p in old(held)
    {
      if scopes[i].disposed {
        return Err(Closed);
      }
      var k := 0;
      while true
        invariant 0 <= k && (allocator.Some? ==> k <= |allocator.value|)
        invariant Valid() && held == old(held) && live == old(live) && receivers == old(receivers) && scopes == old(scopes)
        invariant old(nextPid) <= nextPid && (allocator.None? ==> forall p :: old(nextPid) <= p < nextPid ==> p in held)
        invariant allocator.Some? ==> nextPid == old(nextPid) && forall j :: 0 <= j < k ==> allocator.value[j] in held
        decreases if allocator.Some? then |allocator.value| - k else MAX_PID + 1 - nextPid
      {
        if allocator.None? && nextPid > MAX_PID {
          return Err(Exhausted);
        }
        var pid := nextPid;
        if allocator.Some? {
          if k == |allocator.value| {
            return Err(Unanswered);
          }
          pid, k := allocator.value[k], k + 1;
        } else {
          nextPid := nextPid + 1;
        }
        if !IsPid(pid) {
          return Err(Exhausted);
        }
        if pid in held || pid in live {
          continue;
        }
        Take(i, pid, false);
        return Ok(pid);
      }
    }

    method Take(i: nat, pid: int, claims: bool)
      requires Valid() && i < |scopes| && !scopes[i].disposed && IsPid(pid) && pid !in held
      modifies this`held, this`scopes, this`owner
      ensures Valid() && held == old(held) + {pid}
      ensures scopes == old(scopes)[i := Taken(old(scopes)[i], pid, claims)]
    {
      TakenOk(owner, held, live, receivers, scopes, i, pid, claims);
      owner := owner[pid := i];
      held := held + {pid};
      scopes := scopes[i := Taken(scopes[i], pid, claims)];
    }

    /** A number the embedder gave. */
    method Claim(i: nat, pid: int) returns (r: Result<int, Error>)
      requires Valid() && i < |scopes|
      modifies this`held, this`scopes, this`owner
      ensures Valid()
      ensures r == if old(scopes)[i].disposed then Err(Closed) else if !(2 <= pid <= 0x7fff_ffff) then Err(InvalidPid)
                   else if pid in old(held) then Err(AlreadyHeld) else Ok(pid)
      ensures r.Ok? ==> held == old(held) + {pid}
      ensures r.Ok? ==> scopes == old(scopes)[i := old(scopes)[i].(numbers := old(scopes)[i].numbers + {pid},
                                                                   claimed := old(scopes)[i].claimed + {pid})]
      ensures r.Err? ==> held == old(held) && scopes == old(scopes)
    {
      if scopes[i].disposed {
        return Err(Closed);
      }
      if !IsPid(pid) {
        return Err(InvalidPid);
      }
      if pid in held || pid in live {
        return Err(AlreadyHeld);
      }
      Take(i, pid, true);
      return Ok(pid);
    }

    /** A run is announced as a live process, once, by the scope that holds its number. */
    method Publish(i: nat, token: string, identity: Identity) returns (r: Result<Identity, Error>)
      requires Valid() && i < |scopes|
      modifies this`live, this`receivers, this`scopes
      ensures Valid() && held == old(held)
      ensures r == Admitted(old(scopes)[i], old(live), token, identity)
      ensures r.Err? ==> live == old(live) && receivers == old(receivers) && scopes == old(scopes)
      ensures r.Ok? ==> r.value.pid == identity.pid && r.value.ppid == identity.ppid
      ensures r.Ok? ==> live == old(live)[identity.pid := r.value] && receivers == old(receivers)[identity.pid := i]
      ensures r.Ok? && Run(token, r.value) in old(scopes)[i].runs ==> live == old(live) && scopes == old(scopes)
      ensures r.Ok? && Run(token, r.value) !in old(scopes)[i].runs ==>
                && identity.pid !in old(live) && OfToken(old(scopes)[i].runs, token).None?
                && scopes == old(scopes)[i := old(scopes)[i].(runs := old(scopes)[i].runs + [Run(token, r.value)])]
    {
      hide OfToken, OfPid, ScopesOk, Owned, Listed;
      var s := scopes[i];
      ScopeFacts(owner, held, live, receivers, scopes, i);
      if s.disposed {
        return Err(Closed);
      }
      var previous := OfToken(s.runs, token);
      if previous.Some? && previous.value.pid == identity.pid && previous.value.ppid == identity.ppid {
        if identity.pgid.Some? && identity.pgid != previous.value.pgid {
          return Err(GroupChanged);
        }
        assert Run(token, previous.value) in s.runs;
        assert live[identity.pid := previous.value] == live && scopes == scopes[i := scopes[i]];
        return Ok(previous.value);
      }
      if previous.Some? || identity.pid !in s.numbers || identity.pid in live {
        return Err(NotOwned);
      }
      if identity.ppid < 0 || identity.ppid > MAX_PID {
        return Err(InvalidParent);
      }
      var parent := OfPid(s.runs, identity.ppid);
      if identity.ppid != 0 && parent.None? && identity.pid !in s.claimed {
        return Err(ForeignParent);
      }
      var inherited := Inherited(parent, identity.pid);
      var pgid := if identity.pgid.Some? then identity.pgid.value else inherited;
      if pgid < 1 || pgid > MAX_PID || (pgid != identity.pid && pgid != inherited) {
        return Err(InvalidGroup);
      }
      var entry := Identity(identity.pid, identity.ppid, Some(pgid));
      PublishedOk(owner, held, live, receivers, scopes, i, Run(token, entry));
      scopes := scopes[i := s.(runs := s.runs + [Run(token, entry)])];
      live, receivers := live[entry.pid := entry], receivers[entry.pid := i];
      return Ok(entry);
    }

    /** A run's end gives its number back, and no other. */
    method Forget(i: nat, token: string) returns (r: Result<Option<int>, Error>)
      requires Valid() && i < |scopes|
      modifies this
      ensures Valid() && nextPid == old(nextPid)
      ensures old(scopes)[i].disposed <==> r == Err(Closed)
      ensures r.Err? || r.value.None? ==> held == old(held) && live == old(live) && scopes == old(scopes) && receivers == old(receivers)
      ensures r.Ok? && r.value.None? <==> r.Ok? && OfToken(old(scopes)[i].runs, token).None?
      ensures r.Ok? && r.value.Some? ==>
                && OfToken(old(scopes)[i].runs, token).value.pid == r.value.value && r.value.value in old(scopes)[i].numbers
                && held == old(held) - {r.value.value} && live == old(live) - {r.value.value}
                && receivers == old(receivers) - {r.value.value}
                && scopes == old(scopes)[i := Scope(old(scopes)[i].numbers - {r.value.value},
                                                    old(scopes)[i].claimed - {r.value.value},
                                                    WithoutToken(old(scopes)[i].runs, token), false)]
    {
      var s := scopes[i];
      if s.disposed {
        return Err(Closed);
      }
      var entry := OfToken(s.runs, token);
      if entry.None? {
        return Ok(None);
      }
      var pid := entry.value.pid;
      ForgottenOk(owner, held, live, receivers, scopes, i, token, pid);
      scopes := scopes[i := Forgotten(s, token, pid)];
      live, receivers, held := live - {pid}, receivers - {pid}, held - {pid};
      owner := owner - {pid};
      return Ok(Some(pid));
    }

    /** A scope's end gives back its numbers, and no other's. */
    method Dispose(i: nat)
      requires Valid() && i < |scopes|
      modifies this
      ensures Valid() && nextPid == old(nextPid)
      ensures held == old(held) - old(scopes)[i].numbers && live == old(live) - old(scopes)[i].numbers
      ensures receivers == old(receivers) - old(scopes)[i].numbers
      ensures scopes == old(scopes)[i := DISPOSED]
    {
      var s := scopes[i];
      DisposedOk(owner, held, live, receivers, scopes, i);
      RunsAreNumbers(owner, held, live, receivers, scopes, i);
      ScopeFacts(owner, held, live, receivers, scopes, i);
      if s.disposed {
        assert scopes == scopes[i := DISPOSED] && held - {} == held && live - {} == live;
        return;
      }
      var pids := set r | r in s.runs :: r.identity.pid;
      live, receivers := live - pids, receivers - pids;
      held := held - s.numbers;
      owner := owner - s.numbers;
      scopes := scopes[i := DISPOSED];
    }
  }

  function Taken(s: Scope, pid: int, claims: bool): Scope {
    s.(numbers := s.numbers + {pid}, claimed := if claims then s.claimed + {pid} else s.claimed)
  }

  function Forgotten(s: Scope, token: string, pid: int): Scope {
    s.(runs := WithoutToken(s.runs, token), numbers := s.numbers - {pid}, claimed := s.claimed - {pid})
  }

  function Inherited(parent: Option<Identity>, pid: int): int {
    if parent.None? then pid else if parent.value.pgid.Some? then parent.value.pgid.value else parent.value.pid
  }

  /** What a publication comes to: the run's identity, or why it is refused. */
  function Admitted(s: Scope, live: map<int, Identity>, token: string, identity: Identity): Result<Identity, Error> {
    var previous := OfToken(s.runs, token);
    var parent := OfPid(s.runs, identity.ppid);
    var pgid := if identity.pgid.Some? then identity.pgid.value else Inherited(parent, identity.pid);
    if s.disposed then Err(Closed)
    else if previous.Some? && previous.value.pid == identity.pid && previous.value.ppid == identity.ppid then
      if identity.pgid.Some? && identity.pgid != previous.value.pgid then Err(GroupChanged) else Ok(previous.value)
    else if previous.Some? || identity.pid !in s.numbers || identity.pid in live then Err(NotOwned)
    else if identity.ppid < 0 || identity.ppid > MAX_PID then Err(InvalidParent)
    else if identity.ppid != 0 && parent.None? && identity.pid !in s.claimed then Err(ForeignParent)
    else if pgid < 1 || pgid > MAX_PID || (pgid != identity.pid && pgid != Inherited(parent, identity.pid)) then Err(InvalidGroup)
    else Ok(Identity(identity.pid, identity.ppid, Some(pgid)))
  }

  /** A run's group: its own, or the one it heads. */
  ghost predicate InGroup(r: Run, group: int) {
    match r.identity.pgid
    case Some(own) => group == own
    case None => group == r.identity.pid
  }

  predicate IsParent(s: Scope, r: Run, identity: Identity) {
    r in s.runs && r.identity.pid == identity.ppid
  }

  /**
   * A process is in the group it asks for, and asking for none in its parent's, or its own where it has no parent; one
   * asked for is its own or its parent's. Its parent is a run of its scope, none, or the embedder's.
   */
  lemma GroupIsOwnOrParents(s: Scope, live: map<int, Identity>, token: string, identity: Identity)
    requires Admitted(s, live, token, identity).Ok? && OfToken(s.runs, token).None?
    ensures var entry := Admitted(s, live, token, identity).value;
      && entry.pid == identity.pid && entry.ppid == identity.ppid && entry.pgid.Some?
      && (identity.pgid.Some? ==> entry.pgid == identity.pgid)
      && (entry.pgid == Some(entry.pid) || exists r :: IsParent(s, r, identity) && InGroup(r, entry.pgid.value))
      && (identity.pgid.None? && (forall r :: !IsParent(s, r, identity)) ==> entry.pgid == Some(entry.pid))
      && (identity.pgid.None? && ScopeOk(s) ==> forall r :: IsParent(s, r, identity) ==> InGroup(r, entry.pgid.value))
    ensures identity.ppid == 0 || identity.pid in s.claimed || exists r :: IsParent(s, r, identity)
  {
    var parent := OfPid(s.runs, identity.ppid);
    if parent.Some? {
      var r :| r in s.runs && r.identity == parent.value;
      assert IsParent(s, r, identity) && InGroup(r, Inherited(parent, identity.pid));
    } else {
      assert forall r :: IsParent(s, r, identity) ==> r.identity.pid != identity.ppid;
    }
  }

  lemma ScopeFacts(owner: map<int, nat>, held: set<int>, live: map<int, Identity>, receivers: map<int, nat>,
                   scopes: seq<Scope>, i: nat)
    requires ScopesOk(scopes) && Owned(owner, held, scopes) && Listed(owner, live, receivers, scopes) && i < |scopes|
    ensures ScopeOk(scopes[i]) && RunsListed(scopes[i].runs, i, live, receivers)
    ensures forall p <- scopes[i].numbers :: p in owner && owner[p] == i
  {
  }

  lemma TakenOk(owner: map<int, nat>, held: set<int>, live: map<int, Identity>, receivers: map<int, nat>,
                scopes: seq<Scope>, i: nat, pid: int, claims: bool)
    requires ScopesOk(scopes) && Owned(owner, held, scopes) && Listed(owner, live, receivers, scopes)
    requires i < |scopes| && !scopes[i].disposed && IsPid(pid) && pid !in held
    ensures ScopesOk(scopes[i := Taken(scopes[i], pid, claims)])
    ensures Owned(owner[pid := i], held + {pid}, scopes[i := Taken(scopes[i], pid, claims)])
    ensures Listed(owner[pid := i], live, receivers, scopes[i := Taken(scopes[i], pid, claims)])
  {
    hide OfPid;
    assert ScopeOk(scopes[i]);
  }

  lemma ScopeGrows(s: Scope, run: Run)
    requires ScopeOk(s) && !s.disposed && run.identity.pid in s.numbers
    requires forall r <- s.runs :: r.token != run.token && r.identity.pid != run.identity.pid
    ensures ScopeOk(s.(runs := s.runs + [run]))
  {
  }

  lemma ScopeShrinks(s: Scope, token: string, pid: int)
    requires ScopeOk(s) && OfToken(s.runs, token).Some? && OfToken(s.runs, token).value.pid == pid
    ensures ScopeOk(Forgotten(s, token, pid)) && pid in s.numbers
    ensures forall r <- s.runs :: r.token == token <==> r.identity.pid == pid
  {
    hide OfToken, WithoutToken;
    var gone := Run(token, OfToken(s.runs, token).value);
    assert gone in s.runs;
    WithoutTokenIs(s.runs, token);
    forall r | r in s.runs ensures r.token == token <==> r.identity.pid == pid {
      assert r.token == token || r.identity.pid == pid ==> r == gone;
    }
    assert !s.disposed;
  }

  lemma PublishedOk(owner: map<int, nat>, held: set<int>, live: map<int, Identity>, receivers: map<int, nat>,
                    scopes: seq<Scope>, i: nat, run: Run)
    requires ScopesOk(scopes) && Owned(owner, held, scopes) && Listed(owner, live, receivers, scopes)
    requires i < |scopes| && !scopes[i].disposed && run.identity.pid in scopes[i].numbers
    requires run.identity.pid !in live && OfToken(scopes[i].runs, run.token).None?
    ensures ScopesOk(scopes[i := scopes[i].(runs := scopes[i].runs + [run])])
    ensures Owned(owner, held, scopes[i := scopes[i].(runs := scopes[i].runs + [run])])
    ensures Listed(owner, live[run.identity.pid := run.identity], receivers[run.identity.pid := i],
                   scopes[i := scopes[i].(runs := scopes[i].runs + [run])])
  {
    assert ScopeOk(scopes[i]) && RunsListed(scopes[i].runs, i, live, receivers);
    ScopeGrows(scopes[i], run);
    PublishedTable(owner, live, receivers, scopes, i, run);
    PublishedRuns(live, receivers, scopes, i, run);
    hide OfPid, OfToken, ScopeOk, TableOk, RunsOk;
  }

  lemma PublishedTable(owner: map<int, nat>, live: map<int, Identity>, receivers: map<int, nat>, scopes: seq<Scope>, i: nat,
                       run: Run)
    requires TableOk(owner, live, receivers, scopes) && i < |scopes|
    requires run.identity.pid in owner && owner[run.identity.pid] == i && OfPid(scopes[i].runs, run.identity.pid).None?
    ensures TableOk(owner, live[run.identity.pid := run.identity], receivers[run.identity.pid := i],
                    scopes[i := scopes[i].(runs := scopes[i].runs + [run])])
  {
    hide OfPid;
    var next := scopes[i := scopes[i].(runs := scopes[i].runs + [run])];
    var live' := live[run.identity.pid := run.identity];
    forall p | p in live' ensures p in owner && owner[p] < |scopes| && OfPid(next[owner[p]].runs, p) == Some(live'[p]) {
      OfPidAppend(scopes[i].runs, run, p);
      assert p != run.identity.pid ==> p in live;
    }
  }

  lemma PublishedRuns(live: map<int, Identity>, receivers: map<int, nat>, scopes: seq<Scope>, i: nat, run: Run)
    requires RunsOk(live, receivers, scopes) && i < |scopes| && run.identity.pid !in live
    ensures RunsOk(live[run.identity.pid := run.identity], receivers[run.identity.pid := i],
                   scopes[i := scopes[i].(runs := scopes[i].runs + [run])])
  {
    var next := scopes[i := scopes[i].(runs := scopes[i].runs + [run])];
    forall j | 0 <= j < |next|
      ensures RunsListed(next[j].runs, j, live[run.identity.pid := run.identity], receivers[run.identity.pid := i])
    {
      assert RunsListed(scopes[j].runs, j, live, receivers);
    }
  }

  lemma ForgottenOk(owner: map<int, nat>, held: set<int>, live: map<int, Identity>, receivers: map<int, nat>,
                    scopes: seq<Scope>, i: nat, token: string, pid: int)
    requires ScopesOk(scopes) && Owned(owner, held, scopes) && Listed(owner, live, receivers, scopes) && i < |scopes|
    requires OfToken(scopes[i].runs, token).Some? && OfToken(scopes[i].runs, token).value.pid == pid
    ensures ScopesOk(scopes[i := Forgotten(scopes[i], token, pid)]) && pid in scopes[i].numbers
    ensures Owned(owner - {pid}, held - {pid}, scopes[i := Forgotten(scopes[i], token, pid)])
    ensures Listed(owner - {pid}, live - {pid}, receivers - {pid}, scopes[i := Forgotten(scopes[i], token, pid)])
  {
    assert ScopeOk(scopes[i]) && RunsListed(scopes[i].runs, i, live, receivers);
    ScopeShrinks(scopes[i], token, pid);
    ForgottenTable(owner, live, receivers, scopes, i, token, pid);
    ForgottenRuns(live, receivers, scopes, i, token, pid);
    hide OfPid, OfToken, WithoutToken, ScopeOk, TableOk, RunsOk;
  }

  lemma ForgottenTable(owner: map<int, nat>, live: map<int, Identity>, receivers: map<int, nat>, scopes: seq<Scope>, i: nat,
                       token: string, pid: int)
    requires TableOk(owner, live, receivers, scopes) && i < |scopes|
    requires forall r <- scopes[i].runs :: r.token == token <==> r.identity.pid == pid
    ensures TableOk(owner - {pid}, live - {pid}, receivers - {pid}, scopes[i := Forgotten(scopes[i], token, pid)])
  {
    hide OfPid, WithoutToken;
    var next := scopes[i := Forgotten(scopes[i], token, pid)];
    forall p | p in live - {pid} ensures p in owner && owner[p] < |scopes| && OfPid(next[owner[p]].runs, p) == Some(live[p]) {
      OfPidWithout(scopes[i].runs, token, p);
    }
  }

  lemma ForgottenRuns(live: map<int, Identity>, receivers: map<int, nat>, scopes: seq<Scope>, i: nat, token: string, pid: int)
    requires RunsOk(live, receivers, scopes) && i < |scopes| && pid in receivers && receivers[pid] == i
    requires forall r <- scopes[i].runs :: r.token == token <==> r.identity.pid == pid
    ensures RunsOk(live - {pid}, receivers - {pid}, scopes[i := Forgotten(scopes[i], token, pid)])
  {
    hide WithoutToken;
    var next := scopes[i := Forgotten(scopes[i], token, pid)];
    WithoutTokenIs(scopes[i].runs, token);
    forall j | 0 <= j < |next| ensures RunsListed(next[j].runs, j, live - {pid}, receivers - {pid}) {
      assert RunsListed(scopes[j].runs, j, live, receivers);
    }
  }

  lemma DisposedOk(owner: map<int, nat>, held: set<int>, live: map<int, Identity>, receivers: map<int, nat>,
                   scopes: seq<Scope>, i: nat)
    requires ScopesOk(scopes) && Owned(owner, held, scopes) && Listed(owner, live, receivers, scopes) && i < |scopes|
    ensures ScopesOk(scopes[i := DISPOSED])
    ensures Owned(owner - scopes[i].numbers, held - scopes[i].numbers, scopes[i := DISPOSED])
    ensures Listed(owner - scopes[i].numbers, live - scopes[i].numbers, receivers - scopes[i].numbers, scopes[i := DISPOSED])
  {
    hide OfPid;
    var gone := scopes[i].numbers;
    var next := scopes[i := DISPOSED];
    forall j | 0 <= j < |next| ensures RunsListed(next[j].runs, j, live - gone, receivers - gone) {
      assert RunsListed(scopes[j].runs, j, live, receivers);
      forall r | r in next[j].runs ensures r.identity.pid !in gone {
        assert r in scopes[j].runs && receivers[r.identity.pid] == j;
      }
    }
  }

  /** The runs a scope's end takes off the table are those of its numbers. */
  lemma RunsAreNumbers(owner: map<int, nat>, held: set<int>, live: map<int, Identity>, receivers: map<int, nat>,
                       scopes: seq<Scope>, i: nat)
    requires ScopesOk(scopes) && Owned(owner, held, scopes) && Listed(owner, live, receivers, scopes) && i < |scopes|
    ensures live - (set r | r in scopes[i].runs :: r.identity.pid) == live - scopes[i].numbers
    ensures receivers - (set r | r in scopes[i].runs :: r.identity.pid) == receivers - scopes[i].numbers
  {
    hide OfPid;
    var pids := set r | r in scopes[i].runs :: r.identity.pid;
    assert ScopeOk(scopes[i]);
    forall p | p in live ensures p in pids <==> p in scopes[i].numbers {
      if p in scopes[i].numbers {
        assert owner[p] == i && OfPid(scopes[i].runs, p) == Some(live[p]);
      }
    }
  }

  /** What `Valid` says of an owner's table, read off: held is the disjoint union of the scopes' numbers. */
  lemma HeldIsDisjointUnion(owner: map<int, nat>, held: set<int>, scopes: seq<Scope>)
    requires Owned(owner, held, scopes)
    ensures forall i, j :: 0 <= i < j < |scopes| ==> scopes[i].numbers !! scopes[j].numbers
    ensures forall p :: p in held <==> exists i :: 0 <= i < |scopes| && p in scopes[i].numbers
  {
    forall p | p in held ensures exists i :: 0 <= i < |scopes| && p in scopes[i].numbers {
      assert p in scopes[owner[p]].numbers;
    }
    forall i, j | 0 <= i < j < |scopes| ensures scopes[i].numbers !! scopes[j].numbers {
      forall p | p in scopes[i].numbers ensures p !in scopes[j].numbers {
        assert owner[p] == i;
      }
    }
  }

  /** A live process is one run, of one scope: its own number, and where it answers. */
  lemma LiveIsOneRun(owner: map<int, nat>, held: set<int>, live: map<int, Identity>, receivers: map<int, nat>,
                     scopes: seq<Scope>, i: nat, q: Run, j: nat, r: Run)
    requires ScopesOk(scopes) && Owned(owner, held, scopes) && Listed(owner, live, receivers, scopes)
    requires i < |scopes| && j < |scopes| && q in scopes[i].runs && r in scopes[j].runs
    requires q.identity.pid == r.identity.pid
    ensures i == j == receivers[q.identity.pid] && q == r
  {
    hide OfPid;
    assert ScopeOk(scopes[i]) && RunsListed(scopes[i].runs, i, live, receivers);
    assert RunsListed(scopes[j].runs, j, live, receivers);
  }
}
