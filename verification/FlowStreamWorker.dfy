/** The service worker's end of a flow-controlled response as its closures run it, and what it refuses and tells. */
module FlowStreamWorker {
  import opened FlowStream

  /** A request's stream: the variables its closures share, and what they have sent the page. */
  class RequestStream {
    var headed: bool
    var credited: bool
    var ended: bool
    var pulling: bool
    var body: Body
    var received: seq<seq<Byte>>
    var sent: seq<Order>
    /** Whether a message or a pull was ever refused. */
    ghost var violated: bool

    ghost function Value(): Worker
      reads this
    {
      Worker(headed, credited, ended, pulling, body, received, violated)
    }

    constructor ()
      ensures Value() == Initial().worker && sent == []
    {
      headed, credited, ended, pulling, body, received, sent := false, false, false, false, Readable, [], [];
      violated := false;
    }

    /** The request leaves the table and a pull still waiting is settled. */
    method Finish()
      modifies this`ended, this`pulling
      ensures ended && !pulling
    {
      ended := true;
      pulling := false;
    }

    method Fail(notify: bool)
      modifies this
      ensures Value() == FlowStream.Fail(old(Value()), notify).worker
      ensures sent == old(sent) + FlowStream.Fail(old(Value()), notify).orders
    {
      if ended {
        return;
      }
      if notify {
        sent := sent + [Cancel];
      }
      body := Errored;
      Finish();
    }

    method Pull()
      modifies this
      ensures Value() == WorkerPull(old(Value())).worker && sent == old(sent) + WorkerPull(old(Value())).orders
    {
      if ended {
        return;
      }
      if credited {
        violated := true;
        body := Errored;
        return;
      }
      credited := true;
      pulling := true;
      sent := sent + [FlowStream.Pull];
    }

    method CancelStream()
      modifies this
      ensures Value() == WorkerCancel(old(Value())).worker && sent == old(sent) + WorkerCancel(old(Value())).orders
    {
      if ended {
        return;
      }
      sent := sent + [Cancel];
      body := Abandoned;
      Finish();
    }

    method Message(m: Msg)
      modifies this
      ensures Value() == WorkerMessage(old(Value()), m).worker && sent == old(sent) + WorkerMessage(old(Value()), m).orders
    {
      if ended {
        return;
      }
      if m.Start? && !headed {
        headed := true;
      } else if m.Chunk? && headed && credited && |m.bytes| <= 65536 {
        credited := false;
        received := received + [m.bytes];
        pulling := false;
      } else if m.End? && headed {
        body := Closed;
        Finish();
      } else if m.Error? {
        Fail(false);
      } else {
        violated := true;
        Fail(true);
      }
    }
  }

  // ------------------------------------------------------------------ what it refuses

  /** The messages the protocol allows where the worker stands. */
  predicate Allowed(w: Worker, m: Msg) {
    match m
    case Start => !w.headed
    case Chunk(bytes) => w.headed && w.credited && |bytes| <= 65536
    case End => w.headed
    case Error => true
  }

  /** A message not allowed fails the stream and cancels the page's end; one allowed is taken as it is meant. */
  lemma MessageTaken(w: Worker, m: Msg)
    requires !w.ended && !w.violated
    ensures var t := WorkerMessage(w, m);
      && (t.worker.violated <==> !Allowed(w, m))
      && (!Allowed(w, m) ==> t.worker.body.Errored? && t.orders == [Cancel])
      && (Allowed(w, m) ==> t.orders == [])
      && t.worker.received == w.received + (if Allowed(w, m) && m.Chunk? then [m.bytes] else [])
      && (t.worker.ended <==> !Allowed(w, m) || m.End? || m.Error?)
      && (Allowed(w, m) && m.End? ==> t.worker.body.Closed?) && (m.Error? ==> t.worker.body.Errored?)
      && (Allowed(w, m) && m.Chunk? ==> !t.worker.credited) && (Allowed(w, m) && m.Start? ==> t.worker.headed)
      && (t.worker.ended || m.Chunk? ==> !t.worker.pulling)
  {
  }

  /** A second pull before the first was answered is an error of the stream; the first gives the page one credit. */
  lemma PullTaken(w: Worker)
    requires !w.ended && !w.violated
    ensures var t := WorkerPull(w);
      && (t.worker.violated <==> w.credited) && (w.credited ==> t.worker.body.Errored? && t.orders == [])
      && (!w.credited ==> t.orders == [Pull] && t.worker.credited && t.worker.pulling && t.worker.body == w.body)
  {
  }

  /** After its end the worker takes and sends nothing. */
  lemma EndedIsDeaf(w: Worker, m: Msg, notify: bool)
    requires w.ended
    ensures WorkerMessage(w, m) == WorkerPull(w) == WorkerCancel(w) == Fail(w, notify) == Sent(w, [])
  {
  }

  // ------------------------------------------------------------------ the page is told

  /** The reader leaves, or the request fails for a reason of the worker's: the page is told, the stream over. */
  lemma LeavingIsTold(s: System, e: Event)
    requires Enabled(s, e) && !s.worker.ended && (e.ReaderCancels? || (e.WorkerFails? && e.notify))
    ensures var t := Do(s, e);
      && t.orders == s.orders + [Cancel] && t.worker.ended && !t.worker.pulling
      && t.worker.body == if e.ReaderCancels? then Abandoned else Errored
  {
  }

  function PageTakesIn(events: seq<Event>, i: nat, j: nat): nat
    requires i <= j <= |events|
    decreases j
  {
    if i == j then 0 else PageTakesIn(events, i, j - 1) + if events[j - 1].PageTakes? then 1 else 0
  }

  /** The page takes the orders one at a time, in the order they were sent. */
  lemma OrdersStep(s: System, e: Event)
    requires Enabled(s, e)
    ensures e.PageTakes? ==> Do(s, e).orders == s.orders[1..] && (s.orders[0].Cancel? ==> Do(s, e).page.finished)
    ensures !e.PageTakes? ==> s.orders <= Do(s, e).orders
    ensures s.page.finished ==> Do(s, e).page.finished
  {
    hide WorkerMessage, WorkerPull, WorkerCancel, Fail, Pieces;
  }

  /** A cancel on its way stops the page's end once the page has taken it and what was sent before it. */
  lemma {:induction false} CancelIsHeard(run: seq<System>, events: seq<Event>, i: nat, j: nat, at: nat)
    requires IsRun(run, events) && i <= j < |run|
    requires at < |run[i].orders| && run[i].orders[at] == Cancel
    ensures var taken := PageTakesIn(events, i, j);
      if taken > at then run[j].page.finished
      else at - taken < |run[j].orders| && run[j].orders[at - taken] == Cancel
    decreases j - i
  {
    hide Do, Enabled;
    if i < j {
      CancelIsHeard(run, events, i, j - 1, at);
      OrdersStep(run[j - 1], events[j - 1]);
    }
  }
}
