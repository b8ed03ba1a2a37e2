/** Messages are conserved: nothing pushed is lost, duplicated or reordered before it is dispatched. */
module Conservation {
  import opened Bits
  import opened Ids
  import opened Documents
  import opened Engine
  import opened Runs
  import opened Ledger

  function Serials(es: seq<Entry>): (ks: seq<nat>)
    ensures |ks| == |es|
  {
    seq(|es|, i requires 0 <= i < |es| => es[i].serial)
  }

  predicate WasDispatched(ds: seq<Dispatched>, k: nat) {
    exists i :: 0 <= i < |ds| && ds[i].serial == k
  }

  /** The first `n` pushes minus the dispatched ones, in push order. */
  function Remaining(n: nat, ds: seq<Dispatched>): seq<nat> {
    if n == 0 then []
    else Remaining(n - 1, ds) + if WasDispatched(ds, n - 1) then [] else [n - 1]
  }

  ghost predicate ConservedIn(serials: seq<nat>, pushed: seq<Pushed>, ds: seq<Dispatched>) {
    && serials == Remaining(|pushed|, ds)
    && (forall i :: 0 <= i < |ds| ==>
          ds[i].serial < |pushed| && ds[i].handler == pushed[ds[i].serial].handler)
    && (forall i, j :: 0 <= i < j < |ds| ==> ds[i].serial != ds[j].serial)
  }

  ghost predicate Conserved(s: State) {
    && ConservedIn(Serials(s.outbox), s.hist.pushed, s.hist.dispatched)
    && forall i :: 0 <= i < |s.outbox| ==>
         s.outbox[i].serial < |s.hist.pushed| &&
         s.outbox[i].handler == s.hist.pushed[s.outbox[i].serial].handler
  }

  lemma {:induction false} RemainingBounds(n: nat, ds: seq<Dispatched>, i: nat)
    requires i < |Remaining(n, ds)|
    ensures Remaining(n, ds)[i] < n && !WasDispatched(ds, Remaining(n, ds)[i])
  {
    if i < |Remaining(n - 1, ds)| {
      RemainingBounds(n - 1, ds, i);
    }
  }

  lemma {:induction false} RemainingIncreases(n: nat, ds: seq<Dispatched>, i: nat, j: nat)
    requires i < j < |Remaining(n, ds)|
    ensures Remaining(n, ds)[i] < Remaining(n, ds)[j]
  {
    if j < |Remaining(n - 1, ds)| {
      RemainingIncreases(n - 1, ds, i, j);
    } else {
      RemainingBounds(n - 1, ds, i);
    }
  }

  lemma SerialsIncrease(s: State, i: nat, j: nat)
    requires Conserved(s) && i < j < |s.outbox|
    ensures s.outbox[i].serial < s.outbox[j].serial
  {
    assert Serials(s.outbox)[i] == s.outbox[i].serial && Serials(s.outbox)[j] == s.outbox[j].serial;
    RemainingIncreases(|s.hist.pushed|, s.hist.dispatched, i, j);
  }

  lemma DispatchedOneMore(ds: seq<Dispatched>, d: Dispatched, k: nat)
    ensures WasDispatched(ds + [d], k) <==> WasDispatched(ds, k) || k == d.serial
  {
    var ds' := ds + [d];
    if k == d.serial {
      assert ds'[|ds|] == d;
    } else if WasDispatched(ds, k) {
      var i :| 0 <= i < |ds| && ds[i].serial == k;
      assert ds'[i] == ds[i];
    }
  }

  /** Dispatching a later message leaves the earlier ones that remain. */
  lemma {:induction false} RemainingUnaffected(n: nat, ds: seq<Dispatched>, d: Dispatched)
    requires n <= d.serial
    ensures Remaining(n, ds + [d]) == Remaining(n, ds)
  {
    if n > 0 {
      RemainingUnaffected(n - 1, ds, d);
      DispatchedOneMore(ds, d, n - 1);
    }
  }

  lemma {:induction false} RemainingDrops(n: nat, ds: seq<Dispatched>, d: Dispatched, i: nat)
    requires i < |Remaining(n, ds)| && Remaining(n, ds)[i] == d.serial
    ensures Remaining(n, ds + [d]) == RemoveAt(Remaining(n, ds), i)
  {
    DispatchedOneMore(ds, d, n - 1);
    var r := Remaining(n - 1, ds);
    if i < |r| {
      RemainingBounds(n - 1, ds, i);
      RemainingDrops(n - 1, ds, d, i);
    } else {
      RemainingUnaffected(n - 1, ds, d);
    }
  }

  lemma PushConserves(s: State, doc: Doc, handler: Handler)
    requires Conserved(s)
    ensures Conserved(Push(s, doc, handler))
  {
    var t := Push(s, doc, handler);
    var n := |s.hist.pushed|;
    assert !WasDispatched(s.hist.dispatched, n);
    assert Remaining(n + 1, s.hist.dispatched) == Remaining(n, s.hist.dispatched) + [n];
    assert Serials(t.outbox) == Serials(s.outbox) + [n];
  }

  lemma IssueHandshakeConserves(s: State)
    requires Conserved(s)
    ensures Conserved(IssueHandshake(s))
  {
    PushConserves(s.(phase := Connecting), HandshakeDoc(), RecvHandshake);
  }

  lemma IssueConnectConserves(s: State)
    requires Conserved(s)
    ensures Conserved(IssueConnect(s))
  {
    IssueHandshakeConserves(s);
    PushConserves(IssueHandshake(s).(connectInFlight := true), ConnectDoc(), RecvConnect);
  }

  lemma ScheduleFlushConserves(s: State)
    requires Conserved(s)
    ensures Conserved(ScheduleFlush(s))
  {
  }

  lemma RegisterConserves(s: State, call: ApiCall)
    requires Conserved(s)
    ensures Conserved(Noted(s, call))
  {
    hide ConservedIn, Matching;
  }

  lemma CallConserves(s: State, call: ApiCall)
    requires Conserved(s)
    ensures Conserved(DoCall(s, call))
  {
    hide IssueConnect, Noted, Push, ScheduleFlush, Conserved;
    RegisterConserves(s, call);
    IssueConnectConserves(Noted(s, call));
    var t := IssueConnect(Noted(s, call));
    PushConserves(t, DocOf(call), HandlerOf(call));
    ScheduleFlushConserves(Push(t, DocOf(call), HandlerOf(call)));
  }

  lemma RemoveConserves(s: State, i: nat)
    requires Conserved(s) && i < |s.outbox|
    ensures Conserved(Remove(s, i))
  {
    var d := Dispatched(s.outbox[i].serial, s.outbox[i].handler);
    var n, ds := |s.hist.pushed|, s.hist.dispatched;
    assert Serials(s.outbox)[i] == d.serial;
    RemainingBounds(n, ds, i);
    RemainingDrops(n, ds, d, i);
    assert Serials(RemoveAt(s.outbox, i)) == RemoveAt(Serials(s.outbox), i);
  }

  lemma {:induction false} ReplyConserves(s: State, m: Incoming)
    requires Conserved(s)
    ensures Conserved(Reply(s, m))
  {
    if m.id.Some? && Find(s.outbox, ParseId(m.id.value)) >= 0 {
      var i := Find(s.outbox, ParseId(m.id.value));
      HandlerLeavesOutbox(s, s.outbox[i].handler, m);
      RemoveConserves(Handle(s, s.outbox[i].handler, m), i);
    }
  }

  lemma SameMessagesConserve(s: State, t: State)
    requires Conserved(s)
    requires SameMessages(s.outbox, t.outbox)
    requires t.hist.pushed == s.hist.pushed && t.hist.dispatched == s.hist.dispatched
    ensures Conserved(t)
  {
    assert Serials(t.outbox) == Serials(s.outbox);
  }

  lemma FlushConserves(s: State)
    requires Conserved(s)
    ensures Conserved(FlushTimerFires(s))
  {
    FlushSameMessages(s);
    FlushFrame(s);
    SameMessagesConserve(s, FlushTimerFires(s));
  }

  lemma SendErrConserves(s: State, batchId: Word)
    requires Conserved(s)
    ensures Conserved(BatchSendErr(s, batchId))
  {
    SendErrSameMessages(s, batchId);
    SameMessagesConserve(s, BatchSendErr(s, batchId));
  }

  lemma ConnectConserves(s: State)
    requires Conserved(s)
    ensures Conserved(ConnectTimerFires(s))
  {
    IssueConnectConserves(ConnectTimerDue(s));
  }

  lemma HandshakeConserves(s: State)
    requires Conserved(s)
    ensures Conserved(HandshakeTimerFires(s))
  {
    IssueHandshakeConserves(s.(handshakeTimer := false));
  }

  lemma QuietConserves(s: State, a: Action)
    requires Conserved(s) && Quiet(a)
    ensures Conserved(Act(s, a))
  {
    QuietFrame(s, a);
  }

  lemma ActConserves(s: State, a: Action)
    requires Conserved(s)
    ensures Conserved(Act(s, a))
  {
    hide Conserved, DoCall, Reply, ConnectTimerFires, FlushTimerFires, HandshakeTimerFires, BatchSendErr;
    match a
    case Calling(call) => CallConserves(s, call);
    case Replying(m) => ReplyConserves(s, m);
    case ConnectFiring => ConnectConserves(s);
    case FlushFiring => FlushConserves(s);
    case HandshakeFiring => HandshakeConserves(s);
    case Failing(batchId) => SendErrConserves(s, batchId);
    case _ => QuietConserves(s, a);
  }

  /** After every run the outbox is exactly the sequence of all pushed messages minus the dispatched
      ones, in push order, and no message has been dispatched twice or to another's handler. */
  lemma {:induction false} MessagesAreConserved(intervalMs: int, es: seq<Event>)
    ensures Conserved(Run(Init(intervalMs), es))
  {
    forall s, a | Conserved(s) ensures Conserved(Act(s, a)) {
      ActConserves(s, a);
    }
    Everywhere(Conserved, Anything, Init(intervalMs), es);
  }
}
