/** The promises of a flow-controlled response over whole runs. */
module FlowStreamRuns {
  import opened FlowStream
  import opened FlowStreamSafety

  lemma {:induction false} EveryStateOk(run: seq<System>, events: seq<Event>, i: nat)
    requires IsRun(run, events) && i < |run|
    ensures Inv(run[i])
  {
    hide Inv, Do, Enabled;
    if i == 0 {
      InitialOk();
    } else {
      EveryStateOk(run, events, i - 1);
      DoOk(run[i - 1], events[i - 1]);
    }
  }

  ghost function ChunksIn(msgs: seq<Msg>): nat {
    if msgs == [] then 0 else ChunksIn(msgs[1..]) + if msgs[0].Chunk? then 1 else 0
  }

  /** The chunks on their way to the worker. */
  ghost function InFlight(s: System): nat
    requires s.consumed <= |s.log|
  {
    ChunksIn(s.log[s.consumed..])
  }

  lemma {:induction false} ChunksInAdds(a: seq<Msg>, b: seq<Msg>)
    ensures ChunksIn(a + b) == ChunksIn(a) + ChunksIn(b)
  {
    if a == [] {
      assert a + b == b;
    } else {
      ChunksInAdds(a[1..], b);
      assert (a + b)[1..] == a[1..] + b;
    }
  }

  lemma {:induction false} ChunksInChunks(pieces: seq<seq<Byte>>)
    ensures ChunksIn(Chunks(pieces)) == |pieces|
  {
    if pieces != [] {
      ChunksInChunks(pieces[1..]);
      assert Chunks(pieces)[1..] == Chunks(pieces[1..]);
    }
  }

  lemma InFlightIs(s: System, script: Script)
    requires OkFor(s, script) && !s.worker.ended
    ensures InFlight(s) == |script.sent| - |s.worker.received|
  {
    hide PageOk, Small, ChunksIn;
    var head := if script.started then [Start] else [];
    var taken := |s.worker.received|;
    var left := script.sent[taken..];
    assert Chunks(script.sent)[taken..] == Chunks(left);
    if s.consumed == 0 {
      assert s.log[0..] == head + Chunks(script.sent) + script.last;
      assert left == script.sent;
      NoChunksIn(head);
      ChunksInAdds(head, Chunks(left));
      ChunksInAdds(head + Chunks(left), script.last);
    } else {
      assert s.log[s.consumed..] == Chunks(left) + script.last;
      ChunksInAdds(Chunks(left), script.last);
    }
    NoChunksIn(script.last);
    ChunksInChunks(left);
  }

  lemma NoChunksIn(msgs: seq<Msg>)
    requires |msgs| <= 1 && (msgs != [] ==> !msgs[0].Chunk?)
    ensures ChunksIn(msgs) == 0
  {
  }

  /**
   * At most one credit is outstanding, whether its pull is on its way, is held by the page, or pays for a chunk on
   * its way: together they are the one the worker has given, for as long as the page lives.
   */
  lemma OneCredit(run: seq<System>, events: seq<Event>, i: nat)
    requires IsRun(run, events) && i < |run| && !run[i].worker.ended
    ensures run[i].consumed <= |run[i].log|
    ensures var s := run[i];
            && InFlight(s) <= 1 && (InFlight(s) == 1 ==> s.worker.credited)
            && (!s.page.finished ==>
                  PullsIn(s.orders) + s.page.credits + InFlight(s) == if s.worker.credited then 1 else 0)
  {
    hide IsRun, Follows, Small;
    EveryStateOk(run, events, i);
    var script :| OkFor(run[i], script);
    InFlightIs(run[i], script);
  }

  /** No message and no pull is ever one the protocol does not allow. */
  lemma NothingRefused(run: seq<System>, events: seq<Event>, i: nat)
    requires IsRun(run, events) && i < |run|
    ensures !run[i].worker.violated
  {
    hide IsRun, Follows, PageOk;
    EveryStateOk(run, events, i);
    var script :| OkFor(run[i], script);
  }

  lemma {:induction false} FlatAdds(a: seq<seq<Byte>>, b: seq<seq<Byte>>)
    ensures Flat(a + b) == Flat(a) + Flat(b)
  {
    if a == [] {
      assert a + b == b;
    } else {
      FlatAdds(a[1..], b);
      assert (a + b)[1..] == a[1..] + b;
    }
  }

  /** The bytes the server has sent over the first i steps. */
  ghost function ServerBytes(run: seq<System>, events: seq<Event>, i: nat): seq<Byte>
    requires IsRun(run, events) && i < |run|
  {
    if i == 0 then []
    else ServerBytes(run, events, i - 1) + if events[i - 1].ServerSends? then events[i - 1].chunk else []
  }

  lemma OnlySendsProduce(s: System, e: Event)
    requires Enabled(s, e)
    ensures Do(s, e).produced == s.produced + if e.ServerSends? then Pieces(e.chunk) else []
  {
    hide Flushed, WorkerMessage, Pieces;
    assert s.produced + [] == s.produced;
  }

  lemma {:induction false} ProducedIsServerBytes(run: seq<System>, events: seq<Event>, i: nat)
    requires IsRun(run, events) && i < |run|
    ensures Flat(run[i].produced) == ServerBytes(run, events, i)
  {
    hide Do, Enabled, Pieces;
    if i > 0 {
      ProducedIsServerBytes(run, events, i - 1);
      var e := events[i - 1];
      OnlySendsProduce(run[i - 1], e);
      if e.ServerSends? {
        PiecesKeepBytes(e.chunk);
        FlatAdds(run[i - 1].produced, Pieces(e.chunk));
      } else {
        assert run[i - 1].produced + [] == run[i - 1].produced;
      }
    }
  }

  /**
   * What the reader received is a prefix of the bytes the server sent, at every point and whatever was cancelled or
   * failed; when the stream closed normally it is all of them, and the server had ended.
   */
  lemma ReaderGetsWhatTheServerSent(run: seq<System>, events: seq<Event>, i: nat)
    requires IsRun(run, events) && i < |run|
    ensures Flat(run[i].worker.received) <= ServerBytes(run, events, i)
    ensures run[i].worker.body.Closed? ==> Flat(run[i].worker.received) == ServerBytes(run, events, i)
    ensures run[i].worker.body.Closed? ==> run[i].server.Ended? || run[i].server.Gone?
  {
    hide Inv, Flat;
    EveryStateOk(run, events, i);
    ProducedIsServerBytes(run, events, i);
    ReceivedIsProduced(run[i]);
    hide IsRun;
    var received, produced := run[i].worker.received, run[i].produced;
    assert produced == received + produced[|received|..];
    FlatAdds(received, produced[|received|..]);
  }

  lemma ReceivedIsProduced(s: System)
    requires Inv(s)
    ensures s.worker.received <= s.produced
    ensures s.worker.body.Closed? ==> s.worker.received == s.produced && (s.server.Ended? || s.server.Gone?)
  {
    hide Follows, Small;
    var script :| OkFor(s, script);
  }

  /** The server is held back exactly while a queue's worth of chunks waits for credit. */
  lemma ServerIsPaced(run: seq<System>, events: seq<Event>, i: nat)
    requires IsRun(run, events) && i < |run| && !run[i].page.finished
    ensures run[i].page.paused <==> |run[i].page.queue| >= 4
  {
    hide IsRun, Follows, WorkerOk, Small;
    EveryStateOk(run, events, i);
    var script :| OkFor(run[i], script);
  }

  /**
   * No stall: a reader still waiting on its pull, with nothing on its way in either direction, waits for the server
   * alone, which has neither ended nor left a chunk behind.
   */
  lemma NoStall(run: seq<System>, events: seq<Event>, i: nat)
    requires IsRun(run, events) && i < |run|
    requires run[i].worker.pulling && !run[i].worker.ended && run[i].orders == [] && run[i].consumed == |run[i].log|
    ensures !run[i].page.finished && run[i].page.queue == [] && !run[i].page.upstreamEnded
    ensures run[i].server.Silent? || run[i].server.Answering?
  {
    hide IsRun, Small;
    EveryStateOk(run, events, i);
    var script :| OkFor(run[i], script);
  }
}
