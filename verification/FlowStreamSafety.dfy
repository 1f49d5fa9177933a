/** What every run of the two ends of a flow-controlled response keeps. */
module FlowStreamSafety {
  import opened FlowStream

  /** How the page's messages go: the start, a chunk for each piece sent, then at most one end or error. */
  datatype Script = Script(started: bool, sent: seq<seq<Byte>>, last: seq<Msg>)

  ghost predicate Follows(log: seq<Msg>, script: Script) {
    && log == (if script.started then [Start] else []) + Chunks(script.sent) + script.last
    && (script.last == [] || script.last == [End] || script.last == [Error])
    && (!script.started ==> script.sent == [] && script.last != [End])
    && Small(script.sent)
  }

  ghost function PullsIn(orders: seq<Order>): nat {
    if orders == [] then 0 else PullsIn(orders[1..]) + if orders[0].Pull? then 1 else 0
  }

  lemma {:induction false} PullsAdd(orders: seq<Order>, o: Order)
    ensures PullsIn(orders + [o]) == PullsIn(orders) + if o.Pull? then 1 else 0
  {
    if orders != [] {
      PullsAdd(orders[1..], o);
      assert (orders + [o])[1..] == orders[1..] + [o];
    }
  }

  /** The chunks the worker has taken out of the log. */
  ghost function Taken(s: System): nat {
    if s.consumed == 0 then 0 else s.consumed - 1
  }

  /** While the request lives at the worker, it has taken exactly what the log begins with. */
  ghost predicate WorkerOk(s: System, script: Script) {
    && !s.worker.violated
    && (s.worker.pulling ==> s.worker.credited || s.worker.ended)
    && (s.worker.body.Readable? <==> !s.worker.ended)
    && s.worker.received <= script.sent
    && (!s.worker.ended ==>
          && s.worker.headed == (s.consumed > 0)
          && s.consumed <= 1 + |script.sent| && (s.consumed > 0 ==> script.started)
          && s.worker.received == script.sent[..Taken(s)]
          && (s.worker.credited ==> s.worker.pulling)
          && s.pulls == |s.worker.received| + (if s.worker.credited then 1 else 0))
    && (s.worker.body.Closed? ==> script.last == [End] && s.worker.received == script.sent)
  }

  /** A piece goes out for each pull seen, in order; what is queued is the rest of what was produced. */
  ghost predicate PageOk(s: System, script: Script) {
    && s.seen + PullsIn(s.orders) == s.pulls
    && |script.sent| <= s.seen
    && script.sent <= s.produced
    && Small(s.produced)
    && (!s.page.finished ==>
          && script.last == []
          && s.produced == script.sent + s.page.queue
          && s.page.credits == s.seen - |script.sent|
          && (s.page.credits == 0 || s.page.queue == [])
          && (s.page.upstreamEnded ==> s.page.queue != [])
          && s.page.upstreamEnded == s.server.Ended?
          && !s.server.Gone?
          && (s.page.paused <==> |s.page.queue| >= QUEUED_CHUNKS))
    && (script.last == [End] ==> script.sent == s.produced && (s.server.Ended? || s.server.Gone?))
    && (Cancel in s.orders || (s.page.finished && script.last == []) ==> s.worker.ended)
    && (s.server.Silent? ==> !script.started && s.produced == [] && script.last == [])
    && (s.server.Answering? ==> script.started)
    && (s.server.Ended? ==> script.started)
  }

  ghost predicate OkFor(s: System, script: Script) {
    Follows(s.log, script) && WorkerOk(s, script) && PageOk(s, script) && s.consumed <= |s.log|
  }

  ghost predicate Inv(s: System) {
    exists script :: OkFor(s, script)
  }

  lemma InitialOk()
    ensures Inv(Initial())
  {
    assert OkFor(Initial(), Script(false, [], []));
  }

  // ------------------------------------------------------------------ the worker's steps

  /** Telling the page something changes the worker and the orders on their way, and nothing else. */
  lemma TellKeepsPage(s: System, t: Sent, script: Script)
    requires PageOk(s, script) && |t.orders| <= 1
    requires (s.worker.ended ==> t.worker.ended) && (Cancel in t.orders ==> t.worker.ended)
    ensures PageOk(Tell(s, t), script)
  {
    if t.orders == [] {
      assert s.orders + t.orders == s.orders;
    } else {
      assert t.orders == [t.orders[0]];
      PullsAdd(s.orders, t.orders[0]);
    }
  }

  lemma ReaderAndFailuresOk(s: System, e: Event, script: Script)
    requires OkFor(s, script) && Enabled(s, e) && (e.ReaderPulls? || e.ReaderCancels? || e.WorkerFails?)
    ensures OkFor(Do(s, e), script)
  {
    hide PageOk, Follows;
    var t := match e case ReaderPulls => WorkerPull(s.worker) case ReaderCancels => WorkerCancel(s.worker)
                     case WorkerFails(notify) => Fail(s.worker, notify) case _ => Sent(s.worker, []);
    TellKeepsPage(s, t, script);
  }

  lemma WorkerTakesOk(s: System, script: Script)
    requires OkFor(s, script) && s.consumed < |s.log|
    ensures OkFor(Do(s, WorkerTakes), script)
  {
    hide PageOk, Follows, Small;
    var m, t := s.log[s.consumed], Do(s, WorkerTakes);
    if !s.worker.ended {
      LogAt(s.log, script, s.consumed);
      if 0 < s.consumed <= |script.sent| {
        var k := s.consumed - 1;
        CreditFound(s, script);
        assert script.sent[..k + 1] == script.sent[..k] + [script.sent[k]];
      } else if s.consumed > 0 {
        assert script.sent[..|script.sent|] == script.sent;
      }
    }
    TakeOk(s, script, t);
  }

  /** The message at a place of the log. */
  lemma LogAt(log: seq<Msg>, script: Script, at: nat)
    requires Follows(log, script) && at < |log|
    ensures at == 0 ==> log[at] == (if script.started then Start else Error) && (!script.started ==> script.last == [Error])
    ensures 0 < at <= |script.sent| ==> log[at] == Chunk(script.sent[at - 1]) && |script.sent[at - 1]| <= MAX_CHUNK_BYTES
    ensures at > |script.sent| && at > 0 ==> 
              script.started && script.last == [log[at]] && at == |script.sent| + 1 && (log[at] == End || log[at] == Error)
  {
  }

  /** Every live chunk finds its credit: one goes out for a pull seen, and only the last pull is unpaid. */
  lemma CreditFound(s: System, script: Script)
    requires OkFor(s, script) && !s.worker.ended && 0 < s.consumed <= |script.sent|
    ensures s.worker.headed && s.worker.credited
  {
    hide Follows, Small;
  }

  lemma TakeOk(s: System, script: Script, t: System)
    requires OkFor(s, script) && s.consumed < |s.log| && t == Do(s, WorkerTakes)
    requires WorkerOk(t, script)
    ensures OkFor(t, script)
  {
    hide WorkerOk, WorkerMessage, PageOk, Follows;
    var told := WorkerMessage(s.worker, s.log[s.consumed]);
    TellKeepsPage(s, told, script);
    SamePage(Tell(s, told), t, script);
  }

  lemma SamePage(s: System, t: System, script: Script)
    requires PageOk(s, script) && t == s.(consumed := t.consumed)
    ensures PageOk(t, script)
  {
  }

  // ------------------------------------------------------------------ the page's steps

  /** What the page posts goes on from the script so far. */
  lemma Extend(log: seq<Msg>, script: Script, pieces: seq<seq<Byte>>, last: seq<Msg>)
    requires Follows(log, script) && script.last == []
    requires script.started || (pieces == [] && last != [End])
    requires last == [] || last == [End] || last == [Error]
    requires Small(pieces)
    ensures Follows(log + Chunks(pieces) + last, Script(script.started, script.sent + pieces, last))
  {
    var head := if script.started then [Start] else [];
    ChunksAdd(script.sent, pieces);
    hide Chunks;
    assert log == head + Chunks(script.sent);
    Reassociate(head, Chunks(script.sent), Chunks(pieces), last);
    hide Small;
    SmallAdds(script.sent, pieces);
  }

  lemma ChunksAdd(a: seq<seq<Byte>>, b: seq<seq<Byte>>)
    ensures Chunks(a + b) == Chunks(a) + Chunks(b)
  {
  }

  lemma Reassociate(a: seq<Msg>, b: seq<Msg>, c: seq<Msg>, d: seq<Msg>)
    ensures a + b + [] == a + b
    ensures a + b + c + d == a + (b + c) + d
  {
  }

  /** The worker's claim is about the log it has taken, which the page only adds to. */
  lemma WorkerKept(s: System, t: System, script: Script, script': Script)
    requires Follows(s.log, script) && WorkerOk(s, script) && s.consumed <= |s.log|
    requires t.worker == s.worker && t.consumed == s.consumed && t.pulls == s.pulls
    requires script.sent <= script'.sent && (script.last == [] || script' == script)
    requires script.started ==> script'.started
    ensures WorkerOk(t, script')
  {
  }

  lemma TakePull(s: System)
    requires s.orders != []
    ensures PullsIn(s.orders) == PullsIn(s.orders[1..]) + if s.orders[0].Pull? then 1 else 0
  {
  }

  /** A flush of the page, after something was queued, a credit came or the server ended. */
  lemma FlushOk(s: System, p: Page, t: System, script: Script) returns (script': Script)
    requires OkFor(s, script) && !s.page.finished && !p.finished
    requires t == Post(s, Flushed(p)).(orders := t.orders, seen := t.seen, server := t.server, produced := t.produced)
    requires t.seen + PullsIn(t.orders) == t.pulls && (t.orders == s.orders || (s.orders != [] && t.orders == s.orders[1..]))
    requires t.produced == script.sent + p.queue && p.credits == t.seen - |script.sent|
    requires Small(t.produced)
    requires p.upstreamEnded == t.server.Ended? && !t.server.Gone?
    requires t.server.Silent? ==> !script.started && t.produced == []
    requires !t.server.Silent? ==> script.started
    ensures OkFor(t, script')
  {
    hide WorkerOk, Small, Follows, PageOk, Chunks;
    script' := AfterFlush(script, p);
    var pieces := p.queue[..Min(p.credits, |p.queue|)];
    FlushedPage(s, p, t, script, script');
    FlushedLog(s, p, script, script');
    WorkerKept(s, t, script, script');
  }

  function AfterFlush(script: Script, p: Page): Script {
    var n := Min(p.credits, |p.queue|);
    Script(script.started, script.sent + p.queue[..n], if p.upstreamEnded && p.queue[n..] == [] then [End] else [])
  }

  lemma FlushedLog(s: System, p: Page, script: Script, script': Script)
    requires Follows(s.log, script) && script.last == [] && !p.finished && script' == AfterFlush(script, p)
    requires script.started || (p.queue == [] && !p.upstreamEnded)
    requires Small(script.sent + p.queue)
    ensures Follows(s.log + Flushed(p).msgs, script')
  {
    hide Follows, Small, Chunks;
    var n := Min(p.credits, |p.queue|);
    var pieces, left := p.queue[..n], p.queue[n..];
    SmallAdds(script.sent, p.queue);
    assert p.queue == pieces + left;
    SmallAdds(pieces, left);
    Extend(s.log, script, pieces, script'.last);
    Reassociate(s.log, Chunks(pieces), script'.last, []);
    assert s.log + (Chunks(pieces) + script'.last) == s.log + Chunks(pieces) + script'.last;
    assert Chunks(pieces) + [] == Chunks(pieces);
  }

  lemma FlushedPage(s: System, p: Page, t: System, script: Script, script': Script)
    requires PageOk(s, script) && !s.page.finished && !p.finished && script' == AfterFlush(script, p)
    requires t == Post(s, Flushed(p)).(orders := t.orders, seen := t.seen, server := t.server, produced := t.produced)
    requires t.seen + PullsIn(t.orders) == t.pulls && (t.orders == s.orders || (s.orders != [] && t.orders == s.orders[1..]))
    requires t.produced == script.sent + p.queue && p.credits == t.seen - |script.sent|
    requires Small(t.produced)
    requires p.upstreamEnded == t.server.Ended? && !t.server.Gone?
    requires t.server.Silent? ==> !script.started && t.produced == []
    requires !t.server.Silent? ==> script.started
    ensures script.last == [] && PageOk(t, script')
  {
    hide Small, Chunks;
    var n := Min(p.credits, |p.queue|);
    assert p.queue == p.queue[..n] + p.queue[n..];
    assert t.produced == script.sent + p.queue[..n] + p.queue[n..];
  }

  lemma PageTakesOk(s: System, script: Script) returns (script': Script)
    requires OkFor(s, script) && s.orders != []
    ensures OkFor(Do(s, PageTakes), script')
  {
    var t := Do(s, PageTakes);
    TakePull(s);
    if s.orders[0].Pull? && !s.page.finished {
      script' := FlushOk(s, s.page.(credits := s.page.credits + 1), t, script);
    } else {
      script' := script;
      assert s.log + [] == s.log;
    }
  }

  ghost predicate Small(pieces: seq<seq<Byte>>) {
    forall piece :: piece in pieces ==> |piece| <= MAX_CHUNK_BYTES
  }

  lemma SmallAdds(a: seq<seq<Byte>>, b: seq<seq<Byte>>)
    ensures Small(a + b) <==> Small(a) && Small(b)
  {
    assert forall piece :: piece in a + b <==> piece in a || piece in b;
  }

  lemma ServerSendsOk(s: System, chunk: seq<Byte>, script: Script) returns (script': Script)
    requires OkFor(s, script) && s.server.Answering?
    ensures OkFor(Do(s, ServerSends(chunk)), script')
  {
    hide Flushed, Follows, Chunks, Small, WorkerOk;
    var t, pieces := Do(s, ServerSends(chunk)), Pieces(chunk);
    PiecesAreSmall(chunk);
    SmallAdds(s.produced, pieces);
    hide Pieces;
    if s.page.finished {
      script' := script;
      NothingPosted(s, t, script, pieces);
    } else {
      var p := s.page.(queue := s.page.queue + pieces);
      assert t.produced == script.sent + p.queue;
      script' := FlushOk(s, p, t, script);
    }
  }

  lemma PiecesAreSmall(chunk: seq<Byte>)
    ensures Small(Pieces(chunk))
  {
    PiecesKeepBytes(chunk);
  }

  lemma NothingPosted(s: System, t: System, script: Script, pieces: seq<seq<Byte>>)
    requires OkFor(s, script) && s.server.Answering? && s.page.finished
    requires t == s.(log := s.log + [], produced := s.produced + pieces) && Small(t.produced)
    ensures OkFor(t, script)
  {
    hide Follows, WorkerOk, Small;
    assert s.log + [] == s.log;
    assert script.sent <= t.produced;
    SameWorker(s, t, script);
  }

  lemma SameWorker(s: System, t: System, script: Script)
    requires WorkerOk(s, script) && t.worker == s.worker && t.consumed == s.consumed && t.pulls == s.pulls
    ensures WorkerOk(t, script)
  {
  }

  lemma ServerEndsOk(s: System, script: Script) returns (script': Script)
    requires OkFor(s, script) && s.server.Answering?
    ensures OkFor(Do(s, ServerEnds), script')
  {
    var t := Do(s, ServerEnds);
    if s.page.finished {
      script' := script;
      assert s.log + [] == s.log;
    } else {
      script' := FlushOk(s, s.page.(upstreamEnded := true), t, script);
    }
  }

  lemma ServerStartsOk(s: System, script: Script)
    requires OkFor(s, script) && s.server.Silent?
    ensures OkFor(Do(s, ServerStarts), script.(started := true))
  {
    assert s.log == [];
  }

  lemma ServerThrowsOk(s: System, script: Script) returns (script': Script)
    requires OkFor(s, script) && !s.server.Gone?
    ensures OkFor(Do(s, ServerThrows), script')
  {
    hide Follows, WorkerOk, Small, Chunks;
    var t := Do(s, ServerThrows);
    if s.page.finished {
      script' := script;
      assert s.log + [] == s.log;
      SameWorker(s, t, script);
    } else {
      script' := script.(last := [Error]);
      ErrorFollows(s.log, script);
      WorkerKept(s, t, script, script');
    }
  }

  lemma ErrorFollows(log: seq<Msg>, script: Script)
    requires Follows(log, script) && script.last == []
    ensures Follows(log + [Error], script.(last := [Error]))
  {
    hide Small;
  }

  lemma NoServerOk(s: System, script: Script)
    requires OkFor(s, script) && s.server.Silent?
    ensures OkFor(Do(s, NoServer), Script(true, [], [End]))
  {
    assert s.log == [];
    assert Do(s, NoServer).log == [Start, End];
  }

  lemma DoOk(s: System, e: Event)
    requires Inv(s) && Enabled(s, e)
    ensures Inv(Do(s, e))
  {
    hide OkFor, Do;
    var script :| OkFor(s, script);
    var script' := script;
    match e
    case WorkerTakes => WorkerTakesOk(s, script);
    case PageTakes => script' := PageTakesOk(s, script);
    case ServerSends(chunk) => script' := ServerSendsOk(s, chunk, script);
    case ServerEnds => script' := ServerEndsOk(s, script);
    case ReaderPulls => ReaderAndFailuresOk(s, e, script);
    case ReaderCancels => ReaderAndFailuresOk(s, e, script);
    case WorkerFails(_) => ReaderAndFailuresOk(s, e, script);
    case ServerStarts => ServerStartsOk(s, script);
      script' := script.(started := true);
    case ServerThrows => script' := ServerThrowsOk(s, script);
    case NoServer => NoServerOk(s, script);
      script' := Script(true, [], [End]);
  }
}
