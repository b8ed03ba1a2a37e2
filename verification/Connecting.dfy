/** Keeping the conversation going: one connect at a time, polling that does not stop by itself, and
    no message left waiting without a wake-up. */
module Connecting {
  import opened Bits
  import opened Ids
  import opened Documents
  import opened Engine
  import opened Runs
  import opened Ledger

  // ---------------------------------------------------------------------------------------------
  // At most one connect is outstanding (section 4.2 of the Bayeux Protocol 1.0)
  // ---------------------------------------------------------------------------------------------

  function Handlers(es: seq<Entry>): (hs: seq<Handler>)
    ensures |hs| == |es|
  {
    seq(|es|, i requires 0 <= i < |es| => es[i].handler)
  }

  function Connects(es: seq<Entry>): nat {
    multiset(Handlers(es))[RecvConnect]
  }

  /** The outbox holds one connect if the client thinks that one is outstanding, and else none. */
  ghost predicate SingleConnect(s: State) {
    Connects(s.outbox) == if s.connectInFlight then 1 else 0
  }

  lemma PushConnects(es: seq<Entry>, e: Entry)
    ensures Connects(es + [e]) == Connects(es) + if e.handler == RecvConnect then 1 else 0
  {
    assert Handlers(es + [e]) == Handlers(es) + [e.handler];
  }

  lemma RemoveConnects(es: seq<Entry>, i: nat)
    requires i < |es|
    ensures Connects(RemoveAt(es, i)) == Connects(es) - if es[i].handler == RecvConnect then 1 else 0
  {
    var hs := Handlers(es);
    assert hs == hs[..i] + [hs[i]] + hs[i + 1..];
    assert Handlers(RemoveAt(es, i)) == hs[..i] + hs[i + 1..];
  }

  lemma SameHandlers(es: seq<Entry>, fs: seq<Entry>)
    requires SameMessages(es, fs)
    ensures Connects(es) == Connects(fs)
  {
    assert Handlers(es) == Handlers(fs);
  }

  lemma PushSingle(s: State, doc: Doc, h: Handler)
    requires SingleConnect(s) && h != RecvConnect
    ensures SingleConnect(Push(s, doc, h))
  {
    PushConnects(s.outbox, NewEntry(doc, h, |s.hist.pushed|));
  }

  lemma IssueHandshakeSingle(s: State)
    requires SingleConnect(s)
    ensures SingleConnect(IssueHandshake(s))
  {
    PushSingle(s.(phase := Connecting), HandshakeDoc(), RecvHandshake);
  }

  lemma IssueConnectSingle(s: State)
    requires SingleConnect(s)
    ensures SingleConnect(IssueConnect(s))
  {
    IssueHandshakeSingle(s);
    var t := IssueHandshake(s);
    PushConnects(t.outbox, NewEntry(ConnectDoc(), RecvConnect, |t.hist.pushed|));
  }

  lemma CallSingle(s: State, call: ApiCall)
    requires SingleConnect(s)
    ensures SingleConnect(DoCall(s, call))
  {
    IssueConnectSingle(Noted(s, call));
    PushSingle(IssueConnect(Noted(s, call)), DocOf(call), HandlerOf(call));
  }

  lemma OnlyConnectRepliesClear(s: State, h: Handler, m: Incoming)
    ensures Handle(s, h, m).connectInFlight == (s.connectInFlight && h != RecvConnect)
  {
  }

  lemma ReplySingle(s: State, m: Incoming)
    requires SingleConnect(s)
    ensures SingleConnect(Reply(s, m))
  {
    ReplyFrame(s, m);
    if m.id.Some? && Find(s.outbox, ParseId(m.id.value)) >= 0 {
      var i := Find(s.outbox, ParseId(m.id.value));
      RemoveConnects(s.outbox, i);
      OnlyConnectRepliesClear(s, s.outbox[i].handler, m);
      if s.outbox[i].handler == RecvConnect {
        assert multiset(Handlers(s.outbox))[Handlers(s.outbox)[i]] > 0;
      }
    }
  }

  lemma FlushSingle(s: State)
    requires SingleConnect(s)
    ensures SingleConnect(FlushTimerFires(s))
  {
    FlushSameMessages(s);
    FlushFrame(s);
    SameHandlers(s.outbox, FlushTimerFires(s).outbox);
  }

  lemma SendErrSingle(s: State, batchId: Word)
    requires SingleConnect(s)
    ensures SingleConnect(BatchSendErr(s, batchId))
  {
    SendErrSameMessages(s, batchId);
    SameHandlers(s.outbox, BatchSendErr(s, batchId).outbox);
  }

  lemma ConnectSingle(s: State)
    requires SingleConnect(s)
    ensures SingleConnect(ConnectTimerFires(s))
  {
    IssueConnectSingle(ConnectTimerDue(s));
  }

  lemma HandshakeSingle(s: State)
    requires SingleConnect(s)
    ensures SingleConnect(HandshakeTimerFires(s))
  {
    IssueHandshakeSingle(s.(handshakeTimer := false));
  }

  lemma QuietSingle(s: State, a: Action)
    requires SingleConnect(s) && Quiet(a)
    ensures SingleConnect(Act(s, a))
  {
    QuietFrame(s, a);
  }

  lemma ActSingle(s: State, a: Action)
    requires SingleConnect(s)
    ensures SingleConnect(Act(s, a))
  {
    hide SingleConnect, DoCall, Reply, ConnectTimerFires, FlushTimerFires, HandshakeTimerFires, BatchSendErr;
    match a
    case Calling(call) => CallSingle(s, call);
    case Replying(m) => ReplySingle(s, m);
    case ConnectFiring => ConnectSingle(s);
    case FlushFiring => FlushSingle(s);
    case HandshakeFiring => HandshakeSingle(s);
    case Failing(batchId) => SendErrSingle(s, batchId);
    case _ => QuietSingle(s, a);
  }

  /** In every state that a client reaches, at most one connect is outstanding, and the client knows
      whether one is. */
  lemma {:induction false} AtMostOneConnect(intervalMs: int, es: seq<Event>)
    ensures SingleConnect(Run(Init(intervalMs), es))
  {
    forall s, a | SingleConnect(s) ensures SingleConnect(Act(s, a)) {
      ActSingle(s, a);
    }
    assert SingleConnect(Init(intervalMs)) by {
      assert Handlers([]) == [];
    }
    Everywhere(SingleConnect, Anything, Init(intervalMs), es);
  }

  // ---------------------------------------------------------------------------------------------
  // Polling does not stop by itself
  // ---------------------------------------------------------------------------------------------

  ghost predicate HasConnected(pushed: seq<Pushed>) {
    exists k :: 0 <= k < |pushed| && pushed[k].handler == RecvConnect
  }

  /** Once a connect has been queued: one is outstanding, or the connect timer is pending, or the
      timer has fired under reconnect advice `none` since the last one was queued. */
  ghost predicate Polling(s: State) {
    HasConnected(s.hist.pushed) ==> s.connectInFlight || s.connectTimer || s.hist.parked
  }

  lemma HasConnectedGrows(pushed: seq<Pushed>, p: Pushed)
    ensures HasConnected(pushed + [p]) <==> HasConnected(pushed) || p.handler == RecvConnect
  {
    var all := pushed + [p];
    assert all[|pushed|] == p;
    if HasConnected(pushed) {
      var k :| 0 <= k < |pushed| && pushed[k].handler == RecvConnect;
      assert all[k] == pushed[k];
    }
  }

  lemma PushPolls(s: State, doc: Doc, h: Handler)
    requires Polling(s) && h != RecvConnect
    ensures Polling(Push(s, doc, h))
  {
    HasConnectedGrows(s.hist.pushed, Pushed(doc, h));
  }

  lemma IssueHandshakePolls(s: State)
    requires Polling(s)
    ensures Polling(IssueHandshake(s))
  {
    PushPolls(s.(phase := Connecting), HandshakeDoc(), RecvHandshake);
  }

  /** A connect attempt leaves one outstanding unless the server has asked for none. */
  lemma IssueConnectPolls(s: State)
    ensures s.reconnect != ReconnectNone ==> IssueConnect(s).connectInFlight
    ensures Polling(s) ==> Polling(IssueConnect(s))
  {
    if Polling(s) {
      IssueHandshakePolls(s);
    }
  }

  lemma CallPolls(s: State, call: ApiCall)
    requires Polling(s)
    ensures Polling(DoCall(s, call))
  {
    IssueConnectPolls(Noted(s, call));
    PushPolls(IssueConnect(Noted(s, call)), DocOf(call), HandlerOf(call));
  }

  lemma ReplyPolls(s: State, m: Incoming)
    requires Polling(s)
    ensures Polling(Reply(s, m))
  {
    ReplyFrame(s, m);
    if m.id.Some? && Find(s.outbox, ParseId(m.id.value)) >= 0 {
      OnlyConnectRepliesClear(s, s.outbox[Find(s.outbox, ParseId(m.id.value))].handler, m);
    }
  }

  lemma FlushPolls(s: State)
    requires Polling(s)
    ensures Polling(FlushTimerFires(s))
  {
    FlushFrame(s);
  }

  lemma SendErrPolls(s: State, batchId: Word)
    requires Polling(s)
    ensures Polling(BatchSendErr(s, batchId))
  {
    SendErrFrame(s, batchId);
  }

  lemma ConnectPolls(s: State)
    requires Polling(s)
    ensures Polling(ConnectTimerFires(s))
  {
    IssueConnectPolls(ConnectTimerDue(s));
  }

  lemma HandshakePolls(s: State)
    requires Polling(s)
    ensures Polling(HandshakeTimerFires(s))
  {
    IssueHandshakePolls(s.(handshakeTimer := false));
  }

  lemma QuietPolls(s: State, a: Action)
    requires Polling(s) && Quiet(a)
    ensures Polling(Act(s, a))
  {
    QuietFrame(s, a);
  }

  lemma ActPolls(s: State, a: Action)
    requires Polling(s)
    ensures Polling(Act(s, a))
  {
    hide Polling, DoCall, Reply, ConnectTimerFires, FlushTimerFires, HandshakeTimerFires, BatchSendErr;
    match a
    case Calling(call) => CallPolls(s, call);
    case Replying(m) => ReplyPolls(s, m);
    case ConnectFiring => ConnectPolls(s);
    case FlushFiring => FlushPolls(s);
    case HandshakeFiring => HandshakePolls(s);
    case Failing(batchId) => SendErrPolls(s, batchId);
    case _ => QuietPolls(s, a);
  }

  /** In every state that a client reaches, polling goes on unless the server has stopped it. */
  lemma {:induction false} PollingGoesOn(intervalMs: int, es: seq<Event>)
    ensures var s := Run(Init(intervalMs), es);
      HasConnected(s.hist.pushed) ==> Connects(s.outbox) == 1 || s.connectTimer || s.hist.parked
  {
    forall s, a | Polling(s) ensures Polling(Act(s, a)) {
      ActPolls(s, a);
    }
    Everywhere(Polling, Anything, Init(intervalMs), es);
    AtMostOneConnect(intervalMs, es);
  }

  /** A message that does not lift reconnect advice `none`. */
  predicate NoRevival(m: Incoming) {
    m.advice.Some? && m.advice.value.reconnect.Some? ==>
      m.advice.value.reconnect.value != "handshake" && m.advice.value.reconnect.value != "retry"
  }

  predicate KeepsNone(a: Action) {
    a.Advising? ==> NoRevival(a.m)
  }

  /** Handshakes and connects among what has been pushed from some point on. */
  ghost predicate NoneQueuedSince(s: State, from: nat) {
    && s.reconnect == ReconnectNone
    && forall k :: from <= k < |s.hist.pushed| ==>
         s.hist.pushed[k].handler != RecvHandshake && s.hist.pushed[k].handler != RecvConnect
  }

  lemma NoneIssuesNothing(s: State)
    requires s.reconnect == ReconnectNone
    ensures IssueHandshake(s) == s && IssueConnect(s) == s
  {
  }

  lemma CallQueuesNone(s: State, call: ApiCall, from: nat)
    requires NoneQueuedSince(s, from)
    ensures NoneQueuedSince(DoCall(s, call), from)
  {
    NoneIssuesNothing(Noted(s, call));
  }

  lemma ReplyQueuesNone(s: State, m: Incoming, from: nat)
    requires NoneQueuedSince(s, from)
    ensures NoneQueuedSince(Reply(s, m), from)
  {
    ReplyFrame(s, m);
  }

  lemma FlushQueuesNone(s: State, from: nat)
    requires NoneQueuedSince(s, from)
    ensures NoneQueuedSince(FlushTimerFires(s), from)
  {
    FlushFrame(s);
  }

  lemma TimersQueueNone(s: State, from: nat)
    requires NoneQueuedSince(s, from)
    ensures NoneQueuedSince(ConnectTimerFires(s), from)
    ensures NoneQueuedSince(HandshakeTimerFires(s), from)
  {
    NoneIssuesNothing(ConnectTimerDue(s));
    NoneIssuesNothing(s.(handshakeTimer := false));
  }

  lemma SendErrQueuesNone(s: State, batchId: Word, from: nat)
    requires NoneQueuedSince(s, from)
    ensures NoneQueuedSince(BatchSendErr(s, batchId), from)
  {
    SendErrFrame(s, batchId);
  }

  lemma QuietQueuesNone(s: State, a: Action, from: nat)
    requires NoneQueuedSince(s, from) && Quiet(a) && KeepsNone(a)
    ensures NoneQueuedSince(Act(s, a), from)
  {
    QuietFrame(s, a);
  }

  lemma ActQueuesNone(s: State, a: Action, from: nat)
    requires NoneQueuedSince(s, from) && KeepsNone(a)
    ensures NoneQueuedSince(Act(s, a), from)
  {
    hide NoneQueuedSince, DoCall, Reply, ConnectTimerFires, FlushTimerFires, HandshakeTimerFires, BatchSendErr;
    match a
    case Calling(call) => CallQueuesNone(s, call, from);
    case Replying(m) => ReplyQueuesNone(s, m, from);
    case ConnectFiring => TimersQueueNone(s, from);
    case FlushFiring => FlushQueuesNone(s, from);
    case HandshakeFiring => TimersQueueNone(s, from);
    case Failing(batchId) => SendErrQueuesNone(s, batchId, from);
    case _ => QuietQueuesNone(s, a, from);
  }

  /** While the server's advice stays `none`, no handshake and no connect is queued. */
  lemma {:induction false} NoneIsObeyed(s: State, es: seq<Event>)
    requires s.reconnect == ReconnectNone
    requires forall e :: e in es && e.MessagesArrive? ==> forall m :: m in e.messages ==> NoRevival(m)
    ensures var t := Run(s, es);
      && t.reconnect == ReconnectNone
      && forall k :: |s.hist.pushed| <= k < |t.hist.pushed| ==>
           t.hist.pushed[k].handler != RecvHandshake && t.hist.pushed[k].handler != RecvConnect
  {
    var from := |s.hist.pushed|;
    var inv := (t: State) => NoneQueuedSince(t, from);
    forall t, a | inv(t) && KeepsNone(a) ensures inv(Act(t, a)) {
      ActQueuesNone(t, a, from);
    }
    Everywhere(inv, KeepsNone, s, es);
  }

  // ---------------------------------------------------------------------------------------------
  // No wake-up is lost
  // ---------------------------------------------------------------------------------------------

  ghost predicate SomeUnsent(es: seq<Entry>) {
    exists i :: 0 <= i < |es| && !es[i].InFlight()
  }

  /** A message waits without a pending flush only behind a handshake that is itself in flight, or
      behind an index past the end of the outbox. */
  ghost predicate NoLostWakeUp(s: State) {
    SomeUnsent(s.outbox) && !s.flushTimer ==>
      && s.handshakeIndex != -1
      && (0 <= s.handshakeIndex < |s.outbox| ==> s.outbox[s.handshakeIndex].InFlight())
  }

  lemma IssueWakes(s: State)
    requires NoLostWakeUp(s)
    ensures NoLostWakeUp(IssueHandshake(s)) && NoLostWakeUp(IssueConnect(s))
  {
  }

  lemma FlushWakes(s: State)
    requires NoLostWakeUp(s)
    ensures NoLostWakeUp(FlushTimerFires(s))
  {
    var t := FlushTimerFires(s);
    if s.handshakeIndex == -1 && s.outbox != [] {
      forall i | 0 <= i < |t.outbox| ensures t.outbox[i].InFlight() {
        assert t.outbox[i] == StampedAt(s.(flushTimer := false), i);
      }
    }
  }

  lemma StepWakes(s: State, e: Event)
    requires NoLostWakeUp(s)
    ensures NoLostWakeUp(Step(s, e))
  {
    match e
    case CallApi(call) =>
    case ConnectTimeout => IssueWakes(ConnectTimerDue(s));
    case FlushTimeout => FlushWakes(s);
    case HandshakeTimeout => IssueWakes(s.(handshakeTimer := false));
    case MessagesArrive(messages) =>
    case SendFails(batchId) =>
  }

  /** Between any two turns of the event loop, whatever was called from inside event callbacks. */
  lemma {:induction false} WakeUpsAreNotLost(intervalMs: int, es: seq<Event>)
    ensures NoLostWakeUp(Run(Init(intervalMs), es))
  {
    if es != [] {
      WakeUpsAreNotLost(intervalMs, es[..|es| - 1]);
      StepWakes(Run(Init(intervalMs), es[..|es| - 1]), es[|es| - 1]);
    }
  }

  // ---------------------------------------------------------------------------------------------
  // The client is never silent
  // ---------------------------------------------------------------------------------------------

  /** While something is queued, a flush is pending or one of the client's requests is unanswered. */
  ghost predicate NotSilent(s: State, used: nat) {
    !s.hist.staleRead && s.outbox != [] ==> s.flushTimer || used < |s.hist.sent|
  }

  lemma IssueNotSilent(s: State, used: nat)
    requires NotSilent(s, used)
    ensures NotSilent(IssueHandshake(s), used) && NotSilent(IssueConnect(s), used)
    ensures IssueConnect(s).hist.sent == s.hist.sent && IssueHandshake(s).hist.sent == s.hist.sent
  {
  }

  /** Every flush sends one text, unless its index is stale. */
  lemma FlushSends(s: State)
    ensures var t := FlushTimerFires(s);
      if s.handshakeIndex == -1 || 0 <= s.handshakeIndex < |s.outbox|
      then |t.hist.sent| == |s.hist.sent| + 1 && t.hist.staleRead == s.hist.staleRead
      else t.hist.sent == s.hist.sent && t.hist.staleRead
  {
    hide FlushAll, FlushOne;
    var u := s.(flushTimer := false);
    if s.handshakeIndex == -1 {
      FlushAllFrame(u);
    } else if 0 <= s.handshakeIndex < |s.outbox| {
      FlushOneFrame(u, s.handshakeIndex);
    }
  }

  lemma FlushNotSilent(s: State, used: nat)
    requires used <= |s.hist.sent|
    ensures var t := FlushTimerFires(s);
      NotSilent(t, used) && used <= |t.hist.sent|
  {
    hide FlushTimerFires;
    FlushSends(s);
  }

  lemma {:induction false} ReceiveAllSendsNothing(s: State, ms: seq<Incoming>)
    ensures ReceiveAll(s, ms).hist.sent == s.hist.sent
  {
    var inv := (t: State) => t.hist.sent == s.hist.sent;
    var ok := (a: Action) => !a.FlushFiring? && !a.ConnectFiring? && !a.HandshakeFiring?;
    forall t, a | inv(t) && ok(a) ensures inv(Act(t, a)) {
      ActSendsNothing(t, a);
    }
    ReceiveAllPreserves(inv, ok, s, ms);
  }

  lemma ActSendsNothing(s: State, a: Action)
    requires !a.FlushFiring? && !a.ConnectFiring? && !a.HandshakeFiring?
    ensures Act(s, a).hist.sent == s.hist.sent
  {
    hide DoCall, Reply, BatchSendErr;
    match a
    case Calling(call) => CallSendsNothing(s, call);
    case Replying(m) => ReplyFrame(s, m);
    case Failing(batchId) => SendErrFrame(s, batchId);
    case _ => QuietFrame(s, a);
  }

  /** Texts are sent by flushes only. */
  lemma OnlyFlushesSend(s: State, a: Action)
    requires !a.FlushFiring?
    ensures Act(s, a).hist.sent == s.hist.sent
  {
    hide IssueConnect, IssueHandshake;
    match a
    case ConnectFiring => IssueSends(ConnectTimerDue(s));
    case HandshakeFiring => IssueSends(s.(handshakeTimer := false));
    case _ => ActSendsNothing(s, a);
  }

  lemma CallSendsNothing(s: State, call: ApiCall)
    ensures DoCall(s, call).hist.sent == s.hist.sent
  {
    hide IssueConnect, Matching;
    IssueSends(Noted(s, call));
  }

  lemma IssueSends(s: State)
    ensures IssueHandshake(s).hist.sent == s.hist.sent && IssueConnect(s).hist.sent == s.hist.sent
  {
  }

  lemma StepNotSilent(s: State, used: nat, e: Event)
    requires used <= |s.hist.sent| && NotSilent(s, used)
    requires IsResponse(e) ==> used < |s.hist.sent|
    ensures var t, now := Step(s, e), used + if IsResponse(e) then 1 else 0;
      now <= |t.hist.sent| && NotSilent(t, now)
  {
    hide FlushTimerFires, IssueConnect, IssueHandshake, ReceiveAll, Matching;
    match e
    case CallApi(call) => CallSendsNothing(s, call);
    case ConnectTimeout => IssueNotSilent(ConnectTimerDue(s), used);
    case FlushTimeout => FlushNotSilent(s, used);
    case HandshakeTimeout => IssueNotSilent(s.(handshakeTimer := false), used);
    case MessagesArrive(messages) => ReceiveAllSendsNothing(s, messages);
    case SendFails(batchId) => SendErrFrame(s, batchId);
  }

  /** In every run in which the transport gives each request at most one response: as long as something is
      queued, a flush is pending or a request is still unanswered, so the server can always speak. */
  lemma {:induction false} ClientIsNeverSilent(intervalMs: int, es: seq<Event>)
    requires Paired(Init(intervalMs), 0, es)
    ensures var s := Run(Init(intervalMs), es);
      && Responses(es) <= |s.hist.sent|
      && (!s.hist.staleRead && s.outbox != [] ==> s.flushTimer || Responses(es) < |s.hist.sent|)
  {
    hide Step;
    if es != [] {
      PairedPrefix(Init(intervalMs), 0, es);
      assert PairedAt(Init(intervalMs), 0, es, |es| - 1);
      ClientIsNeverSilent(intervalMs, es[..|es| - 1]);
      StepNotSilent(Run(Init(intervalMs), es[..|es| - 1]), Responses(es[..|es| - 1]), es[|es| - 1]);
    }
  }
}
