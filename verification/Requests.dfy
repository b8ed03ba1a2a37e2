/** What a server reads in the messages that the client sends (sections 4.1 to 5.1 of the Bayeux Protocol 1.0),
    and that it is what the application asked for. */
module Requests {
  import opened Ids
  import opened Documents
  import opened Engine
  import opened Runs
  import opened Ledger
  import opened Connecting
  import opened FirstCall
  import opened Retrying
  import opened Calls

  // ---------------------------------------------------------------------------------------------
  // A reader of documents
  // ---------------------------------------------------------------------------------------------

  datatype Request =
    | ShakeHands(version: string, connectionTypes: seq<string>)
    | Poll(connectionType: string)
    | SubscribeTo(subscription: string)
    | UnsubscribeFrom(subscription: string)
    | Publication(channel: string, data: string)
    | Unreadable

  predicate HasText(doc: Doc, key: string) {
    key in doc && doc[key].Text?
  }

  /** Goes by the channel field, and wants exactly the fields that the kind of message has. The fields `id`
      and `clientId` may come with any message. */
  function ReadRequest(doc: Doc): Request {
    var fields := doc.Keys - {"id", "clientId"};
    if !HasText(doc, "channel") then Unreadable
    else
      var channel := doc["channel"].text;
      if channel == "/meta/handshake" then
        if fields == {"channel", "version", "supportedConnectionTypes"} && HasText(doc, "version")
           && doc["supportedConnectionTypes"].TextList?
        then ShakeHands(doc["version"].text, doc["supportedConnectionTypes"].items) else Unreadable
      else if channel == "/meta/connect" then
        if fields == {"channel", "connectionType"} && HasText(doc, "connectionType")
        then Poll(doc["connectionType"].text) else Unreadable
      else if channel == "/meta/subscribe" then
        if fields == {"channel", "subscription"} && HasText(doc, "subscription")
        then SubscribeTo(doc["subscription"].text) else Unreadable
      else if channel == "/meta/unsubscribe" then
        if fields == {"channel", "subscription"} && HasText(doc, "subscription")
        then UnsubscribeFrom(doc["subscription"].text) else Unreadable
      else if fields == {"channel", "data"} && doc["data"].Parsed?
        then Publication(channel, doc["data"].source) else Unreadable
  }

  /** A document that can be read is determined, but for its labels, by what is read. */
  lemma ReadingDetermines(a: Doc, b: Doc)
    requires ReadRequest(a) == ReadRequest(b) != Unreadable
    ensures Unlabelled(a) == Unlabelled(b)
  {
    var x, y := Unlabelled(a), Unlabelled(b);
    assert x.Keys == a.Keys - {"id", "clientId"} && y.Keys == b.Keys - {"id", "clientId"};
    assert x.Keys == y.Keys;
    forall k | k in x ensures x[k] == y[k] {
      assert k in a && k in b;
    }
  }

  lemma LabelsDoNotMatter(doc: Doc)
    ensures ReadRequest(Unlabelled(doc)) == ReadRequest(doc)
  {
    var d := Unlabelled(doc);
    assert d.Keys == doc.Keys - {"id", "clientId"};
    assert d.Keys - {"id", "clientId"} == d.Keys;
    assert forall k :: k in d ==> k in doc && d[k] == doc[k];
    assert forall k :: k in doc && k != "id" && k != "clientId" ==> k in d;
  }

  // ---------------------------------------------------------------------------------------------
  // What each request reads as
  // ---------------------------------------------------------------------------------------------

  predicate IsMeta(channel: string) {
    channel in {"/meta/handshake", "/meta/connect", "/meta/subscribe", "/meta/unsubscribe"}
  }

  /** What a call asks of the server. */
  function Asked(call: ApiCall): Request {
    match call
    case Publish(channel, data) => Publication(channel, data)
    case Subscribe(channel, _, _) => SubscribeTo(channel)
    case Unsubscribe(channel) => UnsubscribeFrom(channel)
  }

  function Understood(call: ApiCall): Request {
    if call.Publish? && IsMeta(call.channel) then Unreadable else Asked(call)
  }

  /** The server reads what the call asks, unless the application publishes on one of the protocol's own
      channels, which the client lets it do: then it reads nothing. */
  lemma CallReadsBack(call: ApiCall)
    ensures ReadRequest(DocOf(call)) == Understood(call)
    ensures ReadRequest(DocOf(call)) == Asked(call) <==> !(call.Publish? && IsMeta(call.channel))
  {
    var doc := DocOf(call);
    var fields := doc.Keys - {"id", "clientId"};
    match call
    case Publish(channel, data) =>
      assert fields == {"channel", "data"};
      assert "data" in fields && "subscription" !in fields && "version" !in fields && "connectionType" !in fields;
    case Subscribe(channel, _, _) => assert fields == {"channel", "subscription"};
    case Unsubscribe(channel) => assert fields == {"channel", "subscription"};
  }

  lemma ConnectReadsBack()
    ensures ReadRequest(ConnectDoc()) == Poll("long-polling")
  {
    assert ConnectDoc().Keys - {"id", "clientId"} == {"channel", "connectionType"};
  }

  lemma HandshakeReadsBack()
    ensures ReadRequest(HandshakeDoc()) == ShakeHands("1.0", ["long-polling"])
  {
    assert HandshakeDoc().Keys - {"id", "clientId"} == {"channel", "version", "supportedConnectionTypes"};
  }

  // ---------------------------------------------------------------------------------------------
  // What each action queues
  // ---------------------------------------------------------------------------------------------

  /** A queued message as the server will read it, and the handler for its reply. */
  datatype Queued = Queued(request: Request, handler: Handler)

  const HANDSHAKE := Queued(ShakeHands("1.0", ["long-polling"]), RecvHandshake)
  const CONNECT := Queued(Poll("long-polling"), RecvConnect)

  function ForCall(call: ApiCall): Queued {
    match call
    case Publish(_, _) => Queued(Understood(call), RecvPublish)
    case Subscribe(_, _, _) => Queued(Understood(call), RecvSubscribe)
    case Unsubscribe(_) => Queued(Understood(call), RecvUnsubscribe)
  }

  function ReadAll(pushed: seq<Pushed>): (qs: seq<Queued>)
    ensures |qs| == |pushed|
  {
    seq(|pushed|, k requires 0 <= k < |pushed| => Queued(ReadRequest(pushed[k].doc), pushed[k].handler))
  }

  lemma ReadOneMore(pushed: seq<Pushed>, p: Pushed)
    ensures ReadAll(pushed + [p]) == ReadAll(pushed) + [Queued(ReadRequest(p.doc), p.handler)]
  {
  }

  function HandshakeDue(s: State): seq<Queued> {
    if s.phase == Unconnected && s.reconnect != ReconnectNone then [HANDSHAKE] else []
  }

  function ConnectDue(s: State): seq<Queued> {
    if s.reconnect != ReconnectNone && !s.connectInFlight then [CONNECT] else []
  }

  /** A call queues its own message, behind a handshake if no session is under way and behind a connect if
      none is outstanding; advice `none` suppresses both. The connect timer queues the same without the
      message of a call, the handshake timer at most a handshake. Nothing else queues anything. */
  function Queues(s: State, a: Action): seq<Queued> {
    match a
    case Calling(call) => HandshakeDue(s) + ConnectDue(s) + [ForCall(call)]
    case ConnectFiring => HandshakeDue(s) + ConnectDue(s)
    case HandshakeFiring => HandshakeDue(s)
    case _ => []
  }

  lemma IssueHandshakeQueues(s: State)
    ensures var t := IssueHandshake(s);
      ReadAll(t.hist.pushed) == ReadAll(s.hist.pushed) + HandshakeDue(s)
      && t.reconnect == s.reconnect && t.connectInFlight == s.connectInFlight
  {
    hide ReadAll, HandshakeDoc, ReadRequest;
    HandshakeReadsBack();
    ReadOneMore(s.hist.pushed, Pushed(HandshakeDoc(), RecvHandshake));
    assert ReadAll(s.hist.pushed) + [] == ReadAll(s.hist.pushed);
  }

  lemma IssueConnectQueues(s: State)
    ensures ReadAll(IssueConnect(s).hist.pushed) == ReadAll(s.hist.pushed) + HandshakeDue(s) + ConnectDue(s)
  {
    hide ReadAll, IssueHandshake, ConnectDoc, ReadRequest, HandshakeDue;
    IssueHandshakeQueues(s);
    ConnectReadsBack();
    var t := IssueHandshake(s);
    ReadOneMore(t.hist.pushed, Pushed(ConnectDoc(), RecvConnect));
    assert ReadAll(s.hist.pushed) + HandshakeDue(s) + [] == ReadAll(s.hist.pushed) + HandshakeDue(s);
  }

  lemma DueSame(s: State, t: State)
    requires s.phase == t.phase && s.reconnect == t.reconnect && s.connectInFlight == t.connectInFlight
    ensures HandshakeDue(s) == HandshakeDue(t) && ConnectDue(s) == ConnectDue(t)
  {
  }

  lemma NotedSame(s: State, call: ApiCall)
    ensures var t := Noted(s, call);
      && t == s.(subs := t.subs, hist := s.hist.(registered := t.hist.registered, overrun := t.hist.overrun))
  {
    hide Matching;
  }

  lemma CallQueues(s: State, call: ApiCall)
    ensures ReadAll(DoCall(s, call).hist.pushed) ==
      ReadAll(s.hist.pushed) + (HandshakeDue(s) + ConnectDue(s) + [ForCall(call)])
  {
    hide ReadAll, IssueConnect, Noted, DocOf, HandlerOf, ReadRequest, HandshakeDue, ConnectDue, ForCall;
    var u := Noted(s, call);
    NotedSame(s, call);
    DueSame(s, u);
    IssueConnectQueues(u);
    CallReading(call);
    ReadOneMore(IssueConnect(u).hist.pushed, Pushed(DocOf(call), HandlerOf(call)));
    Grouped(ReadAll(s.hist.pushed), HandshakeDue(s), ConnectDue(s), [ForCall(call)]);
  }

  lemma CallReading(call: ApiCall)
    ensures Queued(ReadRequest(DocOf(call)), HandlerOf(call)) == ForCall(call)
  {
    hide ReadRequest;
    CallReadsBack(call);
  }

  lemma Grouped<T>(a: seq<T>, b: seq<T>, c: seq<T>, d: seq<T>)
    ensures a + b + c + d == a + (b + c + d)
    ensures a + b + c == a + (b + c) && a + [] == a
  {
  }

  lemma TimersQueue(s: State)
    ensures ReadAll(ConnectTimerFires(s).hist.pushed) == ReadAll(s.hist.pushed) + (HandshakeDue(s) + ConnectDue(s))
    ensures ReadAll(HandshakeTimerFires(s).hist.pushed) == ReadAll(s.hist.pushed) + HandshakeDue(s)
  {
    hide ReadAll, IssueConnect, IssueHandshake, HandshakeDue, ConnectDue;
    DueSame(s, ConnectTimerDue(s));
    DueSame(s, s.(handshakeTimer := false));
    IssueConnectQueues(ConnectTimerDue(s));
    IssueHandshakeQueues(s.(handshakeTimer := false));
    Grouped(ReadAll(s.hist.pushed), HandshakeDue(s), ConnectDue(s), []);
  }

  lemma QueuesExactly(s: State, a: Action)
    ensures ReadAll(Act(s, a).hist.pushed) == ReadAll(s.hist.pushed) + Queues(s, a)
  {
    hide ReadAll, DoCall, ConnectTimerFires, HandshakeTimerFires, FlushTimerFires, BatchSendErr, Reply, HandleAdvice,
         HandshakeDue, ConnectDue, ForCall;
    Grouped(ReadAll(s.hist.pushed), [], [], []);
    match a
    case Calling(call) => CallQueues(s, call);
    case Replying(m) => ReplyFrame(s, m);
    case ConnectFiring => TimersQueue(s);
    case FlushFiring => FlushFrame(s);
    case HandshakeFiring => TimersQueue(s);
    case Failing(batchId) => SendErrFrame(s, batchId);
    case _ => QuietFrame(s, a);
  }

  // ---------------------------------------------------------------------------------------------
  // Runs
  // ---------------------------------------------------------------------------------------------

  /** The queued messages that are neither handshakes nor connects. */
  function Own(qs: seq<Queued>): seq<Queued> {
    if qs == [] then []
    else
      var q := qs[|qs| - 1];
      Own(qs[..|qs| - 1]) + if q == HANDSHAKE || q == CONNECT then [] else [q]
  }

  lemma {:induction false} OwnJoins(a: seq<Queued>, b: seq<Queued>)
    ensures Own(a + b) == Own(a) + Own(b)
  {
    if b == [] {
      assert a + b == a;
    } else {
      OwnJoins(a, b[..|b| - 1]);
      assert (a + b)[..|a + b| - 1] == a + b[..|b| - 1];
    }
  }

  lemma OwnOne(q: Queued)
    ensures Own([q]) == if q == HANDSHAKE || q == CONNECT then [] else [q]
  {
    assert [q][..0] == [];
  }

  /** Handshakes and connects apart, an action queues the message of a call or nothing. */
  lemma OwnQueues(s: State, a: Action)
    ensures Own(Queues(s, a)) == if a.Calling? then [ForCall(a.call)] else []
  {
    hide Own;
    OwnOne(HANDSHAKE);
    OwnOne(CONNECT);
    OwnNothing();
    OwnJoins(HandshakeDue(s), ConnectDue(s));
    if a.Calling? {
      OwnOne(ForCall(a.call));
      OwnJoins(HandshakeDue(s) + ConnectDue(s), [ForCall(a.call)]);
    }
  }

  lemma OwnNothing()
    ensures Own([]) == []
  {
  }

  function EntryFor(call: ApiCall): seq<Queued> {
    [ForCall(call)]
  }

  /** In every run: handshakes and connects apart, what has been queued reads as what the application has
      called, in the order of the calls, and each message has the handler of its kind. */
  lemma {:induction false} RequestsFollowCalls(s: State, es: seq<Event>)
    ensures Own(ReadAll(Run(s, es).hist.pushed)) ==
      Own(ReadAll(s.hist.pushed)) + EntriesFor(EntryFor, CallsIn(s, es))
  {
    var log := (t: State) => Own(ReadAll(t.hist.pushed));
    assert LogsCalls(log, EntryFor) by {
      hide DoCall, ReadAll, Own, Queues;
      forall t, call ensures log(DoCall(t, call)) == log(t) + EntryFor(call) {
        QueuesExactly(t, Calling(call));
        OwnQueues(t, Calling(call));
        OwnJoins(ReadAll(t.hist.pushed), Queues(t, Calling(call)));
      }
      hide Act;
      forall t, a: Action | !a.Calling? ensures log(Act(t, a)) == log(t) {
        QueuesExactly(t, a);
        OwnQueues(t, a);
        OwnJoins(ReadAll(t.hist.pushed), Queues(t, a));
        assert log(t) + [] == log(t);
      }
    }
    LogFollowsCalls(log, EntryFor, s, es);
  }

  /** What has been sent is what was pushed, with labels. */
  ghost predicate SentAsPushed(t: Transmission, pushed: seq<Pushed>) {
    t.Batch? ==> forall k :: 0 <= k < |t.items| ==>
      t.items[k].serial < |pushed| && Unlabelled(t.items[k].doc) == pushed[t.items[k].serial].doc
  }

  ghost predicate AllSentAsPushed(s: State) {
    Kept(s) && forall k :: 0 <= k < |s.hist.sent| ==> SentAsPushed(s.hist.sent[k], s.hist.pushed)
  }

  lemma SentStays(s: State, t: State)
    requires AllSentAsPushed(s) && Kept(t) && s.hist.pushed <= t.hist.pushed && t.hist.sent == s.hist.sent
    ensures AllSentAsPushed(t)
  {
    hide Kept;
    forall k | 0 <= k < |t.hist.sent| ensures SentAsPushed(t.hist.sent[k], t.hist.pushed) {
      assert SentAsPushed(s.hist.sent[k], s.hist.pushed);
    }
  }

  lemma AllItemsAsPushed(s: State)
    requires Kept(s)
    ensures SentAsPushed(AllTransmission(s), s.hist.pushed)
  {
    hide ItemsUpTo, CarriesId;
    if s.outbox != [] {
      var items := ItemsUpTo(s, |s.outbox|);
      forall k | 0 <= k < |items|
        ensures items[k].serial < |s.hist.pushed| && Unlabelled(items[k].doc) == s.hist.pushed[items[k].serial].doc
      {
        ItemsComeFromWaiting(s, |s.outbox|, k);
        var i :| 0 <= i < |s.outbox| && !s.outbox[i].InFlight()
                 && items[k] == SentItem(s.outbox[i].serial, StampedAt(s, i).doc);
        StampedKeeps(s, i);
      }
    }
  }

  lemma OneItemAsPushed(s: State, i: nat)
    requires Kept(s) && i < |s.outbox|
    ensures SentAsPushed(OneTransmission(s, i), s.hist.pushed)
  {
    assert EntryKept(s.outbox[i], s.hist.pushed, s.msgTicks, s.batchTicks);
    LabellingKeepsTheRest(s.outbox[i].doc, IdAt(s.msgTicks), s.clientId);
  }

  lemma OneMoreSent(s: State, t: State, x: Transmission)
    requires AllSentAsPushed(s) && Kept(t) && t.hist.pushed == s.hist.pushed
    requires t.hist.sent == s.hist.sent + [x] && SentAsPushed(x, s.hist.pushed)
    ensures AllSentAsPushed(t)
  {
    hide Kept, SentAsPushed;
  }

  lemma FlushAllAsPushed(s: State)
    requires AllSentAsPushed(s)
    ensures AllSentAsPushed(FlushAll(s))
  {
    FlushAllKeeps(s);
    AllItemsAsPushed(s);
    FlushAllFrame(s);
    hide Kept, SentAsPushed, FlushAll, AllTransmission;
    OneMoreSent(s, FlushAll(s), AllTransmission(s));
  }

  lemma FlushOneAsPushed(s: State, i: nat)
    requires AllSentAsPushed(s) && i < |s.outbox|
    ensures AllSentAsPushed(FlushOne(s, i))
  {
    FlushOneKeeps(s, i);
    OneItemAsPushed(s, i);
    FlushOneFrame(s, i);
    hide Kept, SentAsPushed, FlushOne, OneTransmission;
    OneMoreSent(s, FlushOne(s, i), OneTransmission(s, i));
  }

  lemma FlushSendsAsPushed(s: State)
    requires AllSentAsPushed(s)
    ensures AllSentAsPushed(FlushTimerFires(s))
  {
    hide FlushAll, FlushOne;
    var u := s.(flushTimer := false);
    assert AllSentAsPushed(u);
    if s.handshakeIndex == -1 {
      FlushAllAsPushed(u);
    } else if 0 <= s.handshakeIndex < |s.outbox| {
      FlushOneAsPushed(u, s.handshakeIndex);
    }
  }

  lemma ActSentAsPushed(s: State, a: Action)
    requires AllSentAsPushed(s)
    ensures AllSentAsPushed(Act(s, a))
  {
    if a.FlushFiring? {
      FlushSendsAsPushed(s);
    } else {
      hide Act, Kept;
      ActKeeps(s, a);
      ActKeepsPushed(s, a);
      OnlyFlushesSend(s, a);
      SentStays(s, Act(s, a));
    }
  }

  /** In every run, what a server reads in each message that has been sent is what was queued under its
      place in the order of pushes; and what was queued is handshakes, connects and the application's calls,
      these in the order in which they were made. */
  lemma {:induction false} SentReadsBack(intervalMs: int, es: seq<Event>)
    ensures var s := Run(Init(intervalMs), es);
      && (forall k, j :: 0 <= k < |s.hist.sent| && s.hist.sent[k].Batch? && 0 <= j < |s.hist.sent[k].items| ==>
            var item := s.hist.sent[k].items[j];
            item.serial < |s.hist.pushed| && ReadRequest(item.doc) == ReadAll(s.hist.pushed)[item.serial].request)
      && Own(ReadAll(s.hist.pushed)) == EntriesFor(EntryFor, CallsIn(Init(intervalMs), es))
  {
    forall s, a | AllSentAsPushed(s) ensures AllSentAsPushed(Act(s, a)) {
      ActSentAsPushed(s, a);
    }
    Everywhere(AllSentAsPushed, Anything, Init(intervalMs), es);
    RequestsFollowCalls(Init(intervalMs), es);
    OwnNothing();
    var s := Run(Init(intervalMs), es);
    hide Run, Own, ReadRequest, Kept;
    forall k, j | 0 <= k < |s.hist.sent| && s.hist.sent[k].Batch? && 0 <= j < |s.hist.sent[k].items|
      ensures var item := s.hist.sent[k].items[j];
        item.serial < |s.hist.pushed| && ReadRequest(item.doc) == ReadAll(s.hist.pushed)[item.serial].request
    {
      assert SentAsPushed(s.hist.sent[k], s.hist.pushed);
      LabelsDoNotMatter(s.hist.sent[k].items[j].doc);
    }
  }
}
