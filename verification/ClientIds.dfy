/** Which messages go out with the client id that the protocol asks for on everything but handshakes
    (sections 4.2 to 5.1 of the Bayeux Protocol 1.0). */
module ClientIds {
  import opened Bits
  import opened Ids
  import opened Documents
  import opened Engine
  import opened Runs
  import opened Ledger
  import opened Retrying
  import opened Effects
  import opened Findings

  predicate Named(doc: Doc) {
    "clientId" in doc
  }

  /** All, or none, of a transmission's messages carry a client id. */
  predicate AllAre(t: Transmission, named: bool) {
    t.Batch? ==> forall k :: 0 <= k < |t.items| ==> Named(t.items[k].doc) == named
  }

  lemma StampNames(e: Entry, m: nat, b: nat, clientId: Option<string>)
    ensures Named(Stamp(e, m, b, clientId).doc) == (Named(e.doc) || clientId.Some?)
  {
  }

  lemma {:induction false} ItemsNamed(s: State, n: nat)
    requires n <= |s.outbox|
    requires s.clientId.None? ==> forall i :: 0 <= i < |s.outbox| ==> !Named(s.outbox[i].doc)
    ensures forall k :: 0 <= k < |ItemsUpTo(s, n)| ==> Named(ItemsUpTo(s, n)[k].doc) == s.clientId.Some?
  {
    if n > 0 {
      ItemsNamed(s, n - 1);
      StampNames(s.outbox[n - 1], s.msgTicks + Unsent(s.outbox[..n - 1]), s.batchTicks, s.clientId);
    }
  }

  // ---------------------------------------------------------------------------------------------
  // Before the first successful handshake
  // ---------------------------------------------------------------------------------------------

  /** As long as no client id is known, nothing queued or sent carries one. */
  ghost predicate Nameless(s: State) {
    s.clientId.None? ==>
      && (forall i :: 0 <= i < |s.outbox| ==> !Named(s.outbox[i].doc))
      && forall k :: 0 <= k < |s.hist.sent| ==> AllAre(s.hist.sent[k], false)
  }

  lemma PushNameless(s: State, doc: Doc, h: Handler)
    requires Nameless(s) && Unlabelled(doc) == doc
    ensures Nameless(Push(s, doc, h))
  {
    assert !Named(Unlabelled(doc));
  }

  lemma IssueHandshakeNameless(s: State)
    requires Nameless(s)
    ensures Nameless(IssueHandshake(s))
  {
    PushNameless(s.(phase := Connecting), HandshakeDoc(), RecvHandshake);
  }

  lemma IssueNameless(s: State)
    requires Nameless(s)
    ensures Nameless(IssueConnect(s))
  {
    hide IssueHandshake;
    IssueHandshakeNameless(s);
    PushNameless(IssueHandshake(s).(connectInFlight := true), ConnectDoc(), RecvConnect);
  }

  lemma CallNameless(s: State, call: ApiCall)
    requires Nameless(s)
    ensures Nameless(DoCall(s, call))
  {
    hide IssueConnect, Matching;
    IssueNameless(Noted(s, call));
    PushNameless(IssueConnect(Noted(s, call)), DocOf(call), HandlerOf(call));
  }

  lemma ReplyNameless(s: State, m: Incoming)
    requires Nameless(s)
    ensures Nameless(Reply(s, m))
  {
    ReplyFrame(s, m);
    if m.id.Some? && Find(s.outbox, ParseId(m.id.value)) >= 0 {
      KeepsClientId(s, s.outbox[Find(s.outbox, ParseId(m.id.value))].handler, m);
    }
  }

  /** A client id, once known, is never forgotten. */
  lemma KeepsClientId(s: State, h: Handler, m: Incoming)
    ensures s.clientId.Some? ==> Handle(s, h, m).clientId.Some?
  {
  }

  lemma FlushAllNameless(s: State)
    requires Nameless(s)
    ensures Nameless(FlushAll(s))
  {
    FlushAllFrame(s);
    if s.clientId.None? && s.outbox != [] {
      ItemsNamed(s, |s.outbox|);
      forall i | 0 <= i < |s.outbox| ensures !Named(Stamped(s)[i].doc) {
        StampNames(s.outbox[i], s.msgTicks + Unsent(s.outbox[..i]), s.batchTicks, s.clientId);
      }
    }
  }

  lemma FlushOneNameless(s: State, i: nat)
    requires Nameless(s) && i < |s.outbox|
    ensures Nameless(FlushOne(s, i))
  {
    FlushOneFrame(s, i);
    StampNames(s.outbox[i], s.msgTicks, s.batchTicks, s.clientId);
  }

  lemma FlushNameless(s: State)
    requires Nameless(s)
    ensures Nameless(FlushTimerFires(s))
  {
    hide FlushAll, FlushOne;
    var t := s.(flushTimer := false);
    if s.handshakeIndex == -1 {
      FlushAllNameless(t);
    } else if 0 <= s.handshakeIndex < |s.outbox| {
      FlushOneNameless(t, s.handshakeIndex);
    }
  }

  lemma TimersNameless(s: State)
    requires Nameless(s)
    ensures Nameless(ConnectTimerFires(s)) && Nameless(HandshakeTimerFires(s))
  {
    hide IssueHandshake, IssueConnect;
    IssueNameless(ConnectTimerDue(s));
    IssueHandshakeNameless(s.(handshakeTimer := false));
  }

  lemma SendErrNameless(s: State, batchId: Word)
    requires Nameless(s)
    ensures Nameless(BatchSendErr(s, batchId))
  {
  }

  lemma QuietNameless(s: State, a: Action)
    requires Nameless(s) && Quiet(a)
    ensures Nameless(Act(s, a))
  {
    QuietFrame(s, a);
  }

  lemma ActNameless(s: State, a: Action)
    requires Nameless(s)
    ensures Nameless(Act(s, a))
  {
    hide Nameless, DoCall, Reply, ConnectTimerFires, FlushTimerFires, HandshakeTimerFires, BatchSendErr;
    match a
    case Calling(call) => CallNameless(s, call);
    case Replying(m) => ReplyNameless(s, m);
    case ConnectFiring => TimersNameless(s);
    case FlushFiring => FlushNameless(s);
    case HandshakeFiring => TimersNameless(s);
    case Failing(batchId) => SendErrNameless(s, batchId);
    case _ => QuietNameless(s, a);
  }

  /** Until a handshake has succeeded, no message goes out with a client id. */
  lemma {:induction false} NamelessUntilHandshake(intervalMs: int, es: seq<Event>)
    ensures Nameless(Run(Init(intervalMs), es))
  {
    forall s, a | Nameless(s) ensures Nameless(Act(s, a)) {
      ActNameless(s, a);
    }
    Everywhere(Nameless, Anything, Init(intervalMs), es);
  }

  // ---------------------------------------------------------------------------------------------
  // And ever after
  // ---------------------------------------------------------------------------------------------

  ghost predicate NamedSince(s: State, from: nat) {
    && s.clientId.Some?
    && forall k :: from <= k < |s.hist.sent| ==> AllAre(s.hist.sent[k], true)
  }

  lemma IssueSendsNothing(s: State)
    ensures var t := IssueHandshake(s); t.clientId == s.clientId && t.hist.sent == s.hist.sent
    ensures var t := IssueConnect(s); t.clientId == s.clientId && t.hist.sent == s.hist.sent
  {
  }

  lemma CallNamed(s: State, call: ApiCall, from: nat)
    requires NamedSince(s, from)
    ensures NamedSince(DoCall(s, call), from)
  {
    hide IssueConnect, Matching;
    IssueSendsNothing(Noted(s, call));
  }

  lemma ReplyNamed(s: State, m: Incoming, from: nat)
    requires NamedSince(s, from)
    ensures NamedSince(Reply(s, m), from)
  {
    ReplyFrame(s, m);
    if m.id.Some? && Find(s.outbox, ParseId(m.id.value)) >= 0 {
      KeepsClientId(s, s.outbox[Find(s.outbox, ParseId(m.id.value))].handler, m);
    }
  }

  lemma FlushNamed(s: State, from: nat)
    requires NamedSince(s, from)
    ensures NamedSince(FlushTimerFires(s), from)
  {
    hide FlushAll, FlushOne;
    var t := s.(flushTimer := false);
    if s.handshakeIndex == -1 {
      FlushAllFrame(t);
      ItemsNamed(t, |t.outbox|);
    } else if 0 <= s.handshakeIndex < |s.outbox| {
      FlushOneFrame(t, s.handshakeIndex);
      StampNames(t.outbox[s.handshakeIndex], t.msgTicks, t.batchTicks, t.clientId);
    }
  }

  lemma TimersNamed(s: State, from: nat)
    requires NamedSince(s, from)
    ensures NamedSince(ConnectTimerFires(s), from) && NamedSince(HandshakeTimerFires(s), from)
  {
    hide IssueHandshake, IssueConnect;
    IssueSendsNothing(ConnectTimerDue(s));
    IssueSendsNothing(s.(handshakeTimer := false));
  }

  lemma SendErrNamed(s: State, batchId: Word, from: nat)
    requires NamedSince(s, from)
    ensures NamedSince(BatchSendErr(s, batchId), from)
  {
    SendErrFrame(s, batchId);
  }

  lemma QuietNamed(s: State, a: Action, from: nat)
    requires NamedSince(s, from) && Quiet(a)
    ensures NamedSince(Act(s, a), from)
  {
    QuietFrame(s, a);
  }

  lemma ActNamed(s: State, a: Action, from: nat)
    requires NamedSince(s, from)
    ensures NamedSince(Act(s, a), from)
  {
    hide NamedSince, DoCall, Reply, ConnectTimerFires, FlushTimerFires, HandshakeTimerFires, BatchSendErr;
    match a
    case Calling(call) => CallNamed(s, call, from);
    case Replying(m) => ReplyNamed(s, m, from);
    case ConnectFiring => TimersNamed(s, from);
    case FlushFiring => FlushNamed(s, from);
    case HandshakeFiring => TimersNamed(s, from);
    case Failing(batchId) => SendErrNamed(s, batchId, from);
    case _ => QuietNamed(s, a, from);
  }

  /** From the moment a client id is known, every message that goes out carries one. */
  lemma {:induction false} NamedEverAfter(s: State, es: seq<Event>)
    requires s.clientId.Some?
    ensures var t := Run(s, es);
      t.clientId.Some? && forall k :: |s.hist.sent| <= k < |t.hist.sent| ==> AllAre(t.hist.sent[k], true)
  {
    var from := |s.hist.sent|;
    var inv := (t: State) => NamedSince(t, from);
    forall t, a | inv(t) ensures inv(Act(t, a)) {
      ActNamed(t, a, from);
    }
    Everywhere(inv, Anything, s, es);
  }

  // ---------------------------------------------------------------------------------------------
  // A failed handshake opens the gate all the same
  // ---------------------------------------------------------------------------------------------

  lemma HandshakeAnswer(s: State, m: Incoming, i: nat)
    requires i < |s.outbox| && s.outbox[i].handler == RecvHandshake
    requires m.data.None? && m.id.Some? && Find(s.outbox, ParseId(m.id.value)) == i
    ensures var t := Receive(s, m);
      && t.handshakeIndex == -1 && t.outbox == RemoveAt(s.outbox, i) && t.hist.sent == s.hist.sent
      && t.clientId == if Succeeds(m) then m.clientId else s.clientId
  {
    hide Find, ParseId;
    AdviceFrame(s, m);
    HandshakeReplyFrame(HandleAdvice(s, m), m);
    hide HandleAdvice, HandshakeReply;
  }

  lemma HandshakeReplyFrame(s: State, m: Incoming)
    ensures var t := HandshakeReply(s, m);
      && t.handshakeIndex == -1
      && t.clientId == if Succeeds(m) then m.clientId else s.clientId
  {
  }

  /** From `s` to `t` one batch has been sent. It holds exactly the messages that were waiting among
      `es`, in order, and all or none of them carry a client id. */
  ghost predicate SendsWaiting(s: State, t: State, es: seq<Entry>, named: bool) {
    && |t.hist.sent| == |s.hist.sent| + 1 && s.hist.sent <= t.hist.sent
    && var batch := t.hist.sent[|s.hist.sent|];
    && batch.Batch? && ItemSerials(batch.items) == Waiting(es) && AllAre(batch, named)
    && SentAsStored(batch.items, t.outbox)
  }

  /** A flush with the gate open leaves nothing waiting, and its messages carry a client id exactly
      when one is known. */
  lemma OpenFlush(s: State)
    requires Nameless(s) && s.handshakeIndex == -1 && s.outbox != []
    ensures var t := FlushTimerFires(s);
      && SendsWaiting(s, t, s.outbox, s.clientId.Some?)
      && forall j :: 0 <= j < |t.outbox| ==> t.outbox[j].InFlight()
  {
    var u := s.(flushTimer := false);
    FlushAllFrame(u);
    ItemsNamed(u, |u.outbox|);
    ItemsAreWaiting(u, |u.outbox|);
    ItemsAreAsStored(u);
    assert u.outbox[..|u.outbox|] == u.outbox;
    hide ItemsUpTo, Waiting;
    forall j | 0 <= j < |Stamped(u)| ensures Stamped(u)[j].InFlight() {
      assert Stamped(u)[j] == StampedAt(u, j);
    }
  }

  lemma AnswerStaysNameless(s: State, m: Incoming)
    requires Nameless(s) && m.data.None?
    ensures Nameless(Receive(s, m))
  {
    hide Reply, HandleAdvice, Nameless;
    QuietNameless(s, Advising(m));
    ReplyNameless(HandleAdvice(s, m), m);
  }

  /** In every state that a client reaches: whatever a handshake reply says, it opens the gate, and the
      next flush sends everything that is waiting, with a client id if this or an earlier handshake
      succeeded and without one otherwise. */
  lemma {:induction false} AnyHandshakeReplyOpensGate(intervalMs: int, es: seq<Event>, m: Incoming, i: nat)
    requires var s := Run(Init(intervalMs), es);
      && i < |s.outbox| && s.outbox[i].handler == RecvHandshake && |s.outbox| > 1
      && m.data.None? && m.id.Some? && Find(s.outbox, ParseId(m.id.value)) == i
    ensures var s := Run(Init(intervalMs), es);
      var t := BatchRecv(s, [m]);
      var u := FlushTimerFires(t);
      && t.flushTimer && t.handshakeIndex == -1 && t.outbox == RemoveAt(s.outbox, i)
      && SendsWaiting(s, u, t.outbox, Succeeds(m) || s.clientId.Some?)
      && forall j :: 0 <= j < |u.outbox| ==> u.outbox[j].InFlight()
  {
    var s := Run(Init(intervalMs), es);
    hide Run, Receive, Nameless, FlushTimerFires;
    NamelessUntilHandshake(intervalMs, es);
    OneMessage(s, m);
    HandshakeAnswer(s, m, i);
    AnswerStaysNameless(s, m);
    FlushTimerNameless(Receive(s, m));
    OpenFlush(BatchRecv(s, [m]));
  }

  lemma FlushTimerNameless(s: State)
    requires Nameless(s)
    ensures Nameless(WakeIfWaiting(s))
  {
  }

  // ---------------------------------------------------------------------------------------------
  // A run in which a connect and a publish go out without a client id
  // ---------------------------------------------------------------------------------------------

  const FAILURE := Incoming(None, Some(IdText(0)), None, None, None, Some(false), [])

  /** The server refuses the first handshake. */
  function RefusedRun(): seq<Event> {
    [CALL, FlushTimeout, MessagesArrive([FAILURE]), FlushTimeout]
  }

  /** The two messages that the first call queues behind the handshake. */
  const BEHIND := [NewEntry(ConnectDoc(), RecvConnect, 1), NewEntry(PublishDoc("/a", "1"), RecvPublish, 2)]

  lemma RefusedCall()
    ensures var s := Step(Init(0), CALL);
      && s.outbox == [NewEntry(HandshakeDoc(), RecvHandshake, 0)] + BEHIND
      && s.handshakeIndex == 0 && s.flushTimer && s.clientId == None && s.msgTicks == 0
  {
    var t := IssueHandshake(Init(0));
    assert t.outbox == [NewEntry(HandshakeDoc(), RecvHandshake, 0)];
    var u := IssueConnect(Init(0));
    assert u.outbox == t.outbox + [NewEntry(ConnectDoc(), RecvConnect, 1)];
  }

  lemma RefusedFlush(s: State)
    requires s.outbox == [NewEntry(HandshakeDoc(), RecvHandshake, 0)] + BEHIND
    requires s.handshakeIndex == 0 && s.flushTimer && s.clientId == None && s.msgTicks == 0
    ensures var t := Step(s, FlushTimeout);
      && t.clientId == None && t.outbox != [] && t.outbox[0].handler == RecvHandshake && t.outbox[0].msgId == 0
      && t.outbox[1..] == BEHIND
  {
  }

  lemma RefusedAnswer(s: State)
    requires s.clientId == None && s.outbox != [] && s.outbox[1..] == BEHIND
    requires s.outbox[0].handler == RecvHandshake && s.outbox[0].msgId == 0
    ensures var t := Step(s, MessagesArrive([FAILURE]));
      t.outbox == BEHIND && t.clientId == None && t.handshakeIndex == -1 && t.flushTimer
  {
    hide Receive, Find, ParseId, IdText;
    OneMessage(s, FAILURE);
    Finds(s.outbox, 0);
    HandshakeAnswer(s, FAILURE, 0);
    assert RemoveAt(s.outbox, 0) == BEHIND;
  }

  /** The last thing sent is a batch of a connect and the publish, neither with a client id. */
  ghost predicate SendsNameless(s: State) {
    && s.hist.sent != []
    && var batch := s.hist.sent[|s.hist.sent| - 1];
    && batch.Batch? && |batch.items| == 2 && AllAre(batch, false)
    && Unlabelled(batch.items[0].doc) == ConnectDoc()
    && Unlabelled(batch.items[1].doc) == PublishDoc("/a", "1")
  }

  lemma RefusedSend(s: State)
    requires s.outbox == BEHIND && s.clientId == None && s.handshakeIndex == -1 && s.flushTimer
    ensures SendsNameless(Step(s, FlushTimeout))
  {
    hide Unsent, IdText, Labelled, Stamp;
    var u := s.(flushTimer := false);
    var c, p := StampedAt(u, 0), StampedAt(u, 1);
    assert ItemsUpTo(u, 0) == [] && ItemsUpTo(u, 1) == [SentItem(1, c.doc)];
    assert ItemsUpTo(u, 2) == [SentItem(1, c.doc), SentItem(2, p.doc)];
    StampedNameless(u, 0);
    StampedNameless(u, 1);
  }

  lemma StampedNameless(s: State, i: nat)
    requires s.outbox == BEHIND && s.clientId == None && i < 2
    ensures !Named(StampedAt(s, i).doc) && Unlabelled(StampedAt(s, i).doc) == BEHIND[i].doc
  {
    var m := s.msgTicks + Unsent(s.outbox[..i]);
    StampNames(s.outbox[i], m, s.batchTicks, None);
    LabellingKeepsTheRest(s.outbox[i].doc, IdAt(m), None);
  }

  /** After a refused handshake a connect and a publish go out without a client id. */
  lemma NamelessIsReachable()
    ensures ValidReplies(RefusedRun()) && SendsNameless(Run(Init(0), RefusedRun()))
  {
    hide Step, Run, SendsNameless, ValidReplies;
    RefusedRunIsValid();
    var es := RefusedRun();
    StartOfRun(es);
    RunTakesStep(Init(0), es, 0);
    RefusedCall();
    RunTakesStep(Init(0), es, 1);
    RefusedFlush(Run(Init(0), es[..1]));
    RunTakesStep(Init(0), es, 2);
    RefusedAnswer(Run(Init(0), es[..2]));
    RunTakesStep(Init(0), es, 3);
    RefusedSend(Run(Init(0), es[..3]));
    assert es[..4] == es;
  }

  lemma RefusedRunIsValid()
    ensures ValidReplies(RefusedRun())
  {
    hide IdText, ParseId;
    IdTextRoundTrip(0);
    assert FAILURE.id == Some(IdText(0));
  }
}
