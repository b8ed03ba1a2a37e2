/** Where the program does less than one would expect: concrete runs, and what follows from them. */
module Findings {
  import opened Bits
  import opened Ids
  import opened Documents
  import opened Engine
  import opened Runs
  import opened Ledger
  import opened Handshaking
  import opened Sessions

  // ---------------------------------------------------------------------------------------------
  // The handshake index can go stale
  // ---------------------------------------------------------------------------------------------

  /** A reply to the message with a given id, perhaps with reconnect advice. */
  function ReplyTo(id: Word, reconnect: Option<string>): Incoming {
    Incoming(if reconnect.Some? then Some(AdviceField(reconnect, None)) else None,
             Some(IdText(id)), None, None, None, None, [])
  }

  const CALL := CallApi(Publish("/a", "1"))
  const REPLY0 := ReplyTo(0, Some("handshake"))
  const REPLY1 := ReplyTo(1, None)

  /** Seven turns of the event loop. The reply to the handshake carries the advice to handshake
      again, so a second handshake is queued behind a connect and a publish that are in flight; the
      reply to the connect then shortens the queue. */
  function StaleRun(): seq<Event> {
    [CALL, FlushTimeout, MessagesArrive([REPLY0]), FlushTimeout, ConnectTimeout, MessagesArrive([REPLY1]),
     FlushTimeout]
  }

  predicate Holds(s: State, handlers: seq<Handler>, ids: seq<Word>)
    requires |handlers| == |ids|
  {
    |s.outbox| == |handlers| &&
    forall i :: 0 <= i < |handlers| ==> s.outbox[i].handler == handlers[i] && s.outbox[i].msgId == ids[i]
  }

  ghost predicate Stage(s: State, n: nat) {
    match n
    case 1 =>
      && Holds(s, [RecvHandshake, RecvConnect, RecvPublish], [INVALID_ID, INVALID_ID, INVALID_ID])
      && s.phase == Connecting && s.reconnect == ReconnectRetry && s.msgTicks == 0
      && s.handshakeIndex == 0 && s.flushTimer && s.connectInFlight
    case 2 =>
      && Holds(s, [RecvHandshake, RecvConnect, RecvPublish], [0, INVALID_ID, INVALID_ID])
      && s.phase == Connecting && s.reconnect == ReconnectRetry
      && s.msgTicks == 1 && s.connectInFlight
    case 3 =>
      && Holds(s, [RecvConnect, RecvPublish], [INVALID_ID, INVALID_ID])
      && s.phase == Unconnected && s.reconnect == ReconnectHandshake && s.msgTicks == 1
      && s.handshakeIndex == -1 && s.flushTimer && s.connectTimer && s.connectInFlight
    case 4 =>
      && Holds(s, [RecvConnect, RecvPublish], [1, 2])
      && s.phase == Unconnected && s.reconnect == ReconnectHandshake && s.connectTimer && s.connectInFlight
    case 5 =>
      && Holds(s, [RecvConnect, RecvPublish, RecvHandshake], [1, 2, INVALID_ID])
      && s.handshakeIndex == 2 && s.flushTimer
    case 6 =>
      && Holds(s, [RecvPublish, RecvHandshake], [2, INVALID_ID])
      && s.handshakeIndex == 2 && s.flushTimer
    case _ => s.hist.staleRead
  }

  lemma Stage1()
    ensures Stage(Step(Init(0), CALL), 1)
  {
    var t := IssueHandshake(Init(0));
    assert t.outbox == [NewEntry(HandshakeDoc(), RecvHandshake, 0)];
    var u := IssueConnect(Init(0));
    assert u.outbox == t.outbox + [NewEntry(ConnectDoc(), RecvConnect, 1)];
    var v := Step(Init(0), CALL);
    assert v.outbox == u.outbox + [NewEntry(PublishDoc("/a", "1"), RecvPublish, 2)];
  }

  lemma Stage2(s: State)
    requires Stage(s, 1)
    ensures Stage(Step(s, FlushTimeout), 2)
  {
  }

  lemma OneMessage(s: State, m: Incoming)
    ensures Step(s, MessagesArrive([m])) == WakeIfWaiting(Receive(s, m))
  {
    var ms := [m];
    assert ms[..0] == [];
    assert ReceiveAll(s, ms) == Receive(ReceiveAll(s, ms[..0]), m);
  }

  lemma Finds(es: seq<Entry>, i: nat)
    requires i < |es| && forall j :: 0 <= j < i ==> es[j].msgId != es[i].msgId
    ensures Find(es, ParseId(IdText(es[i].msgId))) == i
  {
    IdTextRoundTrip(es[i].msgId);
  }

  lemma Stage3(s: State)
    requires Stage(s, 2)
    ensures Stage(Step(s, MessagesArrive([REPLY0])), 3)
  {
    hide Receive, ReceiveAll, IdText, ParseId, Find;
    OneMessage(s, REPLY0);
    Finds(s.outbox, 0);
    FirstHandshakeAnswered(s);
  }

  lemma HandshakeAdvised(s: State)
    ensures HandleAdvice(s, REPLY0) ==
      s.(reconnect := ReconnectHandshake, phase := Unconnected, connectTimer := true)
  {
    hide IdText;
  }

  lemma FirstHandshakeAnswered(s: State)
    requires s.outbox != [] && s.outbox[0].handler == RecvHandshake
    requires Find(s.outbox, ParseId(IdText(0))) == 0
    ensures var t := Receive(s, REPLY0);
      && t.outbox == s.outbox[1..] && t.handshakeIndex == -1
      && t.phase == Unconnected && t.reconnect == ReconnectHandshake && t.connectTimer
      && t.msgTicks == s.msgTicks && t.connectInFlight == s.connectInFlight
  {
    hide HandleAdvice, Find, IdText, ParseId;
    HandshakeAdvised(s);
    var t := HandleAdvice(s, REPLY0);
    var u := Handle(t, RecvHandshake, REPLY0);
    assert Receive(s, REPLY0) == Remove(u, 0);
    assert RemoveAt(u.outbox, 0) == s.outbox[1..];
  }

  lemma Stage4(s: State)
    requires Stage(s, 3)
    ensures Stage(Step(s, FlushTimeout), 4)
  {
    var t := Step(s, FlushTimeout);
    var u := s.(flushTimer := false);
    assert s.outbox[..0] == [] && s.outbox[..1][..0] == [];
    assert Unsent(s.outbox[..1]) == 1;
    assert t.outbox == Stamped(u);
    assert t.outbox[0] == StampedAt(u, 0) && t.outbox[1] == StampedAt(u, 1);
  }

  lemma Stage5(s: State)
    requires Stage(s, 4)
    ensures Stage(Step(s, ConnectTimeout), 5)
  {
  }

  lemma Stage6(s: State)
    requires Stage(s, 5)
    ensures Stage(Step(s, MessagesArrive([REPLY1])), 6)
  {
    hide Receive, ReceiveAll, IdText, ParseId, Find;
    OneMessage(s, REPLY1);
    Finds(s.outbox, 0);
    ConnectAnswered(s);
  }

  lemma ConnectAnswered(s: State)
    requires s.outbox != [] && s.outbox[0].handler == RecvConnect
    requires Find(s.outbox, ParseId(IdText(1))) == 0
    ensures var t := Receive(s, REPLY1);
      t.outbox == s.outbox[1..] && t.handshakeIndex == s.handshakeIndex && t.flushTimer == s.flushTimer
  {
    var t := HandleAdvice(s, REPLY1);
    assert t.outbox == s.outbox && t.handshakeIndex == s.handshakeIndex && t.flushTimer == s.flushTimer;
    var u := Handle(t, RecvConnect, REPLY1);
    assert Receive(s, REPLY1) == Remove(u, 0);
    assert RemoveAt(u.outbox, 0) == s.outbox[1..];
  }

  lemma Stage7(s: State)
    requires Stage(s, 6)
    ensures Step(s, FlushTimeout).hist.staleRead
  {
  }

  lemma RunTakesStep(s: State, es: seq<Event>, n: nat)
    requires n < |es|
    ensures Run(s, es[..n + 1]) == Step(Run(s, es[..n]), es[n])
  {
    assert es[..n + 1][..n] == es[..n];
  }

  lemma StaleRunIsValid()
    ensures ValidReplies(StaleRun())
  {
    hide IdText, ParseId;
    IdTextRoundTrip(0);
    IdTextRoundTrip(1);
    assert REPLY0.id == Some(IdText(0)) && REPLY1.id == Some(IdText(1));
  }

  /** A server can make the client flush a slot past the last entry of its outbox, with replies that only
      ever carry ids of messages it was sent. */
  lemma StaleIndexIsReachable()
    ensures ValidReplies(StaleRun()) && Run(Init(0), StaleRun()).hist.staleRead
  {
    hide Step, Stage, Run, ValidReplies;
    StaleRunIsValid();
    var es := StaleRun();
    StartOfRun(es);
    RunTakesStep(Init(0), es, 0);
    Stage1();
    RunTakesStep(Init(0), es, 1);
    Stage2(Run(Init(0), es[..1]));
    RunTakesStep(Init(0), es, 2);
    Stage3(Run(Init(0), es[..2]));
    RunTakesStep(Init(0), es, 3);
    Stage4(Run(Init(0), es[..3]));
    RunTakesStep(Init(0), es, 4);
    Stage5(Run(Init(0), es[..4]));
    RunTakesStep(Init(0), es, 5);
    Stage6(Run(Init(0), es[..5]));
    RunTakesStep(Init(0), es, 6);
    Stage7(Run(Init(0), es[..6]));
    assert es[..7] == es;
  }

  lemma StartOfRun(es: seq<Event>)
    ensures Run(Init(0), es[..0]) == Init(0)
  {
  }

  // ---------------------------------------------------------------------------------------------
  // The gate of the first session needs the transport's order
  // ---------------------------------------------------------------------------------------------

  const STOP := Incoming(Some(AdviceField(Some("none"), None)), None, None, None, None, None, [])

  function EarlyRun(): seq<Event> {
    [MessagesArrive([STOP]), CALL, FlushTimeout]
  }

  lemma EarlyAdvice()
    ensures Step(Init(0), MessagesArrive([STOP])) == Init(0).(reconnect := ReconnectNone)
  {
    OneMessage(Init(0), STOP);
  }

  lemma EarlyCall(s: State)
    requires s == Init(0).(reconnect := ReconnectNone)
    ensures var t := Step(s, CALL);
      && t.outbox == [NewEntry(PublishDoc("/a", "1"), RecvPublish, 0)]
      && t.flushTimer && t.handshakeIndex == -1 && t.hist.dispatched == [] && t.hist.sent == []
  {
  }

  lemma EarlyFlush(s: State)
    requires s.outbox == [NewEntry(PublishDoc("/a", "1"), RecvPublish, 0)]
    requires s.flushTimer && s.handshakeIndex == -1 && s.hist.dispatched == [] && s.hist.sent == []
    ensures var t := Step(s, FlushTimeout);
      && t.hist.dispatched == []
      && |t.hist.sent| == 1 && !HandshakeOnly(t.hist.sent[0])
  {
    var u := s.(flushTimer := false);
    var e := StampedAt(u, 0);
    assert ItemsUpTo(u, 0) == [];
    assert ItemsUpTo(u, 1) == [SentItem(0, e.doc)];
    LabellingKeepsTheRest(PublishDoc("/a", "1"), e.msgId, u.clientId);
    assert "data" in Unlabelled(e.doc);
  }

  /** In the engine without its transport: if advice `none` came before the first call, a publish would go
      out without any handshake. */
  lemma EarlyAdviceOpensGate()
    ensures var s := Run(Init(0), EarlyRun());
      !HandshakeAnswered(s.hist.dispatched) && !HandshakesOnly(s.hist.sent)
  {
    hide Step, HandshakeOnly;
    var es := EarlyRun();
    StartOfRun(es);
    RunTakesStep(Init(0), es, 0);
    EarlyAdvice();
    RunTakesStep(Init(0), es, 1);
    EarlyCall(Run(Init(0), es[..1]));
    RunTakesStep(Init(0), es, 2);
    EarlyFlush(Run(Init(0), es[..2]));
    assert es[..3] == es;
  }

  // ---------------------------------------------------------------------------------------------
  // A handshake reply that does not say whether it succeeded ends the session for good
  // ---------------------------------------------------------------------------------------------

  /** The client believes that a handshake is under way, but none is. */
  ghost predicate Stuck(s: State) {
    && s.phase == Connecting && s.reconnect != ReconnectHandshake
    && forall i :: 0 <= i < |s.outbox| ==> s.outbox[i].handler != RecvHandshake
  }

  /** A reply puts a client there exactly when it answers the only handshake queued, says nothing about
      success and leaves no advice to handshake again. */
  lemma UnclearReplySticks(s: State, m: Incoming)
    requires Progressing(s)
    ensures Stuck(Receive(s, m)) <==> StallsOn(s, m)
  {
    hide Receive, ParseId;
    ReceiveProgress(s, m);
    if StallsOn(s, m) {
      StalledIsStuck(s, m);
    }
  }

  lemma StalledIsStuck(s: State, m: Incoming)
    requires StallsOn(s, m)
    ensures Stuck(Receive(s, m))
  {
    hide Find, ParseId, ReconnectOf;
    AdviceFrame(s, m);
    ReplyFrame(HandleAdvice(s, m), m);
  }

  const UNCLEAR := ReplyTo(0, None)

  /** The server answers the first handshake without saying whether it succeeded. */
  function UnclearRun(): seq<Event> {
    [CALL, FlushTimeout, MessagesArrive([UNCLEAR])]
  }

  lemma UnclearAnswer(s: State)
    requires Stage(s, 2)
    ensures Stuck(Step(s, MessagesArrive([UNCLEAR])))
  {
    hide Receive, IdText, ParseId, Find;
    OneMessage(s, UNCLEAR);
    Finds(s.outbox, 0);
    UnclearReplySticks(s, UNCLEAR);
  }

  /** Three turns are enough. */
  lemma StuckIsReachable()
    ensures ValidReplies(UnclearRun()) && Stuck(Run(Init(0), UnclearRun()))
  {
    hide Step, Stage, Run, Stuck;
    var es := UnclearRun();
    StartOfRun(es);
    RunTakesStep(Init(0), es, 0);
    Stage1();
    RunTakesStep(Init(0), es, 1);
    Stage2(Run(Init(0), es[..1]));
    RunTakesStep(Init(0), es, 2);
    UnclearAnswer(Run(Init(0), es[..2]));
    assert es[..3] == es;
    UnclearRunIsValid();
  }

  lemma UnclearRunIsValid()
    ensures ValidReplies(UnclearRun())
  {
    hide IdText, ParseId;
    IdTextRoundTrip(0);
    assert UNCLEAR.id == Some(IdText(0));
  }

  predicate NoHandshakeAdvice(a: Action) {
    a.Advising? && a.m.advice.Some? && a.m.advice.value.reconnect.Some? ==>
      a.m.advice.value.reconnect.value != "handshake"
  }

  /** Stuck, with no handshake queued from some point on. */
  ghost predicate StuckSince(s: State, from: nat) {
    && Stuck(s)
    && forall k :: from <= k < |s.hist.pushed| ==> s.hist.pushed[k].handler != RecvHandshake
  }

  lemma IssueStaysStuck(s: State, from: nat)
    requires StuckSince(s, from)
    ensures IssueHandshake(s) == s && StuckSince(IssueConnect(s), from)
  {
  }

  lemma CallStaysStuck(s: State, call: ApiCall, from: nat)
    requires StuckSince(s, from)
    ensures StuckSince(DoCall(s, call), from)
  {
    hide IssueConnect, Matching;
    IssueStaysStuck(Noted(s, call), from);
  }

  lemma ReplyStaysStuck(s: State, m: Incoming, from: nat)
    requires StuckSince(s, from)
    ensures StuckSince(Reply(s, m), from)
  {
    ReplyFrame(s, m);
  }

  lemma FlushStaysStuck(s: State, from: nat)
    requires StuckSince(s, from)
    ensures StuckSince(FlushTimerFires(s), from)
  {
    hide FlushTimerFires;
    FlushFrame(s);
    FlushSameMessages(s);
  }

  lemma SendErrStaysStuck(s: State, batchId: Word, from: nat)
    requires StuckSince(s, from)
    ensures StuckSince(BatchSendErr(s, batchId), from)
  {
    hide BatchSendErr;
    SendErrFrame(s, batchId);
    SendErrSameMessages(s, batchId);
  }

  lemma AdviceStaysStuck(s: State, m: Incoming, from: nat)
    requires StuckSince(s, from)
    ensures StuckSince(HandleAdvice(s, m), from) <==> NoHandshakeAdvice(Advising(m))
  {
  }

  /** Only advice to handshake ends it. */
  lemma ActStaysStuck(s: State, a: Action, from: nat)
    requires StuckSince(s, from)
    ensures StuckSince(Act(s, a), from) <==> NoHandshakeAdvice(a)
  {
    hide FlushTimerFires, BatchSendErr, Reply, DoCall, IssueConnect, IssueHandshake, HandleAdvice;
    match a
    case Calling(call) => CallStaysStuck(s, call, from);
    case CallingBack(callback) =>
    case Advising(m) => AdviceStaysStuck(s, m, from);
    case Replying(m) => ReplyStaysStuck(s, m, from);
    case Waking =>
    case ConnectFiring => IssueStaysStuck(ConnectTimerDue(s), from);
    case FlushFiring => FlushStaysStuck(s, from);
    case HandshakeFiring => IssueStaysStuck(s.(handshakeTimer := false), from);
    case Failing(batchId) => SendErrStaysStuck(s, batchId, from);
  }

  /** From there, no timer, no API call and no reply ever queues another handshake, unless the server
      advises one. */
  lemma {:induction false} StuckForGood(s: State, es: seq<Event>)
    requires Stuck(s)
    requires forall e :: e in es && e.MessagesArrive? ==> forall m :: m in e.messages ==>
      NoHandshakeAdvice(Advising(m))
    ensures var t := Run(s, es);
      && Stuck(t)
      && forall k :: |s.hist.pushed| <= k < |t.hist.pushed| ==> t.hist.pushed[k].handler != RecvHandshake
  {
    var from := |s.hist.pushed|;
    var inv := (t: State) => StuckSince(t, from);
    forall t, a | inv(t) && NoHandshakeAdvice(a) ensures inv(Act(t, a)) {
      ActStaysStuck(t, a, from);
    }
    Everywhere(inv, NoHandshakeAdvice, s, es);
  }
}
