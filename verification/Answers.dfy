/** No message is answered before it has been sent. */
module Answers {
  import opened Bits
  import opened Ids
  import opened Documents
  import opened Engine
  import opened Runs
  import opened Ledger
  import opened Handshaking
  import opened Retrying
  import opened Findings

  ghost predicate WasSent(sent: seq<Transmission>, serial: nat) {
    exists k :: 0 <= k < |sent| && Emits(sent[k], serial)
  }

  ghost predicate DispatchedWereSent(s: State) {
    forall i :: 0 <= i < |s.hist.dispatched| ==> WasSent(s.hist.sent, s.hist.dispatched[i].serial)
  }

  /** Whatever is in flight or has been answered has been sent. */
  ghost predicate SentFirst(s: State) {
    && (forall i :: 0 <= i < |s.outbox| && s.outbox[i].InFlight() ==> WasSent(s.hist.sent, s.outbox[i].serial))
    && DispatchedWereSent(s)
  }

  lemma SentStaysSent(sent: seq<Transmission>, t: Transmission, serial: nat)
    ensures WasSent(sent + [t], serial) <==> WasSent(sent, serial) || Emits(t, serial)
  {
    var all := sent + [t];
    assert all[|sent|] == t;
    if WasSent(sent, serial) {
      var k :| 0 <= k < |sent| && Emits(sent[k], serial);
      assert Emits(all[k], serial);
    }
  }

  lemma PushSent(s: State, doc: Doc, h: Handler)
    requires SentFirst(s)
    ensures SentFirst(Push(s, doc, h))
  {
    hide WasSent;
  }

  lemma IssueHandshakeSent(s: State)
    requires SentFirst(s)
    ensures SentFirst(IssueHandshake(s))
  {
    hide WasSent;
    PushSent(s.(phase := Connecting), HandshakeDoc(), RecvHandshake);
  }

  lemma IssueSent(s: State)
    requires SentFirst(s)
    ensures SentFirst(IssueConnect(s))
  {
    hide WasSent, IssueHandshake;
    IssueHandshakeSent(s);
    PushSent(IssueHandshake(s).(connectInFlight := true), ConnectDoc(), RecvConnect);
  }

  lemma CallSent(s: State, call: ApiCall)
    requires SentFirst(s)
    ensures SentFirst(DoCall(s, call))
  {
    hide WasSent, IssueConnect, Matching;
    IssueSent(Noted(s, call));
    PushSent(IssueConnect(Noted(s, call)), DocOf(call), HandlerOf(call));
  }

  lemma ReplySent(s: State, m: Incoming)
    requires SentFirst(s) && (m.id.Some? ==> ParseId(m.id.value) != INVALID_ID)
    ensures SentFirst(Reply(s, m))
  {
    hide WasSent, ParseId;
    ReplyFrame(s, m);
  }

  lemma FlushAllSent(s: State)
    requires SentFirst(s)
    ensures SentFirst(FlushAll(s))
  {
    hide WasSent, Emits;
    FlushAllFrame(s);
    var t, all := FlushAll(s), AllTransmission(s);
    forall serial | WasSent(s.hist.sent, serial) ensures WasSent(t.hist.sent, serial) {
      SentStaysSent(s.hist.sent, all, serial);
    }
    if s.outbox != [] {
      forall i | 0 <= i < |t.outbox| ensures WasSent(t.hist.sent, t.outbox[i].serial) {
        assert t.outbox[i] == StampedAt(s, i);
        if !s.outbox[i].InFlight() {
          WaitingIsEmitted(s, i);
          SentStaysSent(s.hist.sent, all, s.outbox[i].serial);
        }
      }
    }
  }

  lemma WaitingIsEmitted(s: State, i: nat)
    requires i < |s.outbox| && !s.outbox[i].InFlight()
    ensures Emits(AllTransmission(s), s.outbox[i].serial)
  {
    WaitingIsItem(s, |s.outbox|, i);
  }

  lemma FlushOneSent(s: State, i: nat)
    requires SentFirst(s) && i < |s.outbox|
    ensures SentFirst(FlushOne(s, i))
  {
    hide WasSent;
    FlushOneFrame(s, i);
    var t, one := FlushOne(s, i), OneTransmission(s, i);
    forall serial | WasSent(s.hist.sent, serial) ensures WasSent(t.hist.sent, serial) {
      SentStaysSent(s.hist.sent, one, serial);
    }
    if !s.outbox[i].InFlight() {
      assert one.items[0].serial == s.outbox[i].serial;
      SentStaysSent(s.hist.sent, one, s.outbox[i].serial);
    }
  }

  lemma FlushSent(s: State)
    requires SentFirst(s)
    ensures SentFirst(FlushTimerFires(s))
  {
    hide WasSent, FlushAll, FlushOne;
    if s.handshakeIndex == -1 {
      FlushAllSent(s.(flushTimer := false));
    } else if 0 <= s.handshakeIndex < |s.outbox| {
      FlushOneSent(s.(flushTimer := false), s.handshakeIndex);
    }
  }

  lemma SendErrSent(s: State, batchId: Word)
    requires SentFirst(s)
    ensures SentFirst(BatchSendErr(s, batchId))
  {
    hide WasSent;
  }

  lemma TimersSent(s: State)
    requires SentFirst(s)
    ensures SentFirst(ConnectTimerFires(s)) && SentFirst(HandshakeTimerFires(s))
  {
    hide WasSent, IssueConnect, IssueHandshake;
    IssueSent(ConnectTimerDue(s));
    IssueHandshakeSent(s.(handshakeTimer := false));
  }

  lemma QuietSent(s: State, a: Action)
    requires SentFirst(s) && Quiet(a)
    ensures SentFirst(Act(s, a))
  {
    hide WasSent;
    QuietFrame(s, a);
  }

  lemma ActSent(s: State, a: Action)
    requires SentFirst(s) && ValidDataFreeReply(a)
    ensures SentFirst(Act(s, a))
  {
    hide SentFirst, DoCall, Reply, ConnectTimerFires, FlushTimerFires, HandshakeTimerFires, BatchSendErr;
    match a
    case Calling(call) => CallSent(s, call);
    case Replying(m) => ReplySent(s, m);
    case ConnectFiring => TimersSent(s);
    case FlushFiring => FlushSent(s);
    case HandshakeFiring => TimersSent(s);
    case Failing(batchId) => SendErrSent(s, batchId);
    case _ => QuietSent(s, a);
  }

  lemma {:induction false} RunsSendFirst(intervalMs: int, es: seq<Event>)
    requires ValidReplies(es)
    ensures SentFirst(Run(Init(intervalMs), es))
  {
    forall s, a | SentFirst(s) && ValidDataFreeReply(a) ensures SentFirst(Act(s, a)) {
      ActSent(s, a);
    }
    Everywhere(SentFirst, ValidDataFreeReply, Init(intervalMs), es);
  }

  /** In every run, every message that has been dispatched as answered had been sent, as long as no
      reply id decodes to the id of messages not yet sent. */
  lemma {:induction false} AnsweredWereSent(intervalMs: int, es: seq<Event>)
    requires ValidReplies(es)
    ensures DispatchedWereSent(Run(Init(intervalMs), es))
  {
    RunsSendFirst(intervalMs, es);
  }

  /** The next reply breaks this exactly when its id decodes to that id and the first message waiting
      has never been sent. */
  lemma {:induction false} UnsentIsAnsweredExactly(intervalMs: int, es: seq<Event>, m: Incoming)
    requires ValidReplies(es) && m.data.None? && m.id.Some?
    ensures var s := Run(Init(intervalMs), es);
      var first := Find(s.outbox, INVALID_ID);
      !DispatchedWereSent(Receive(s, m)) <==>
        ParseId(m.id.value) == INVALID_ID && first >= 0 && !WasSent(s.hist.sent, s.outbox[first].serial)
  {
    hide Run, WasSent, ParseId;
    RunsSendFirst(intervalMs, es);
    AnswerFollows(Run(Init(intervalMs), es), m);
  }

  lemma AnswerFollows(s: State, m: Incoming)
    requires SentFirst(s) && m.data.None? && m.id.Some?
    ensures var first := Find(s.outbox, INVALID_ID);
      !DispatchedWereSent(Receive(s, m)) <==>
        ParseId(m.id.value) == INVALID_ID && first >= 0 && !WasSent(s.hist.sent, s.outbox[first].serial)
  {
    hide WasSent, ParseId;
    var t := HandleAdvice(s, m);
    AdviceFrame(s, m);
    ReplyFrame(t, m);
    var i, ds := Find(t.outbox, ParseId(m.id.value)), s.hist.dispatched;
    if i >= 0 {
      var d := Dispatched(s.outbox[i].serial, s.outbox[i].handler);
      assert Receive(s, m).hist.dispatched == ds + [d];
      assert (ds + [d])[|ds|] == d;
    }
  }

  /** Such a reply exists, and can take the handshake itself. */
  lemma UnsentCanBeAnswered()
    ensures var m := Incoming(None, Some("-1"), None, None, None, None, []);
      !DispatchedWereSent(Receive(Step(Init(0), CALL), m))
  {
    var s := Step(Init(0), CALL);
    MinusOneDecodesToInvalid();
    Stage1();
    AnswerFollows(s, Incoming(None, Some("-1"), None, None, None, None, []));
  }
}
