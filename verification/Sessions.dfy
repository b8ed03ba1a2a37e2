/** A session is on its way: the client is connected, or a handshake is queued, or a timer is pending
    that will queue one. Which runs keep it there, and what stops it. */
module Sessions {
  import opened Bits
  import opened Ids
  import opened Documents
  import opened Engine
  import opened Runs
  import opened Ledger
  import opened Handshaking
  import opened FirstCall
  import opened Requests
  import opened Effects

  ghost predicate HandshakeQueued(es: seq<Entry>) {
    exists i :: 0 <= i < |es| && es[i].handler == RecvHandshake
  }

  ghost predicate OnlyHandshake(es: seq<Entry>, i: int) {
    && 0 <= i < |es|
    && forall j :: 0 <= j < |es| ==> (es[j].handler == RecvHandshake <==> j == i)
  }

  ghost predicate Progressing(s: State) {
    match s.phase
    case Connected => true
    case Connecting => HandshakeQueued(s.outbox)
    case Unconnected => s.handshakeTimer || s.connectTimer
  }

  /** Message `m` answers the only handshake that a connecting client has queued, does not say whether
      it succeeded, and leaves the client without advice to handshake again. */
  ghost predicate StallsOn(s: State, m: Incoming) {
    && m.data.None? && m.id.Some? && m.successful.None?
    && s.phase == Connecting && TakeAdvice(s, m).reconnect != ReconnectHandshake
    && OnlyHandshake(s.outbox, Find(s.outbox, ParseId(m.id.value)))
  }

  /** One of the messages is of that kind, or the last timer that would have queued a handshake fires
      under advice `none`. */
  ghost predicate StallsAt(s: State, e: Event) {
    match e
    case ConnectTimeout =>
      s.connectTimer && !s.handshakeTimer && s.phase == Unconnected && s.reconnect == ReconnectNone
    case HandshakeTimeout =>
      s.handshakeTimer && !s.connectTimer && s.phase == Unconnected && s.reconnect == ReconnectNone
    case MessagesArrive(messages) =>
      exists k :: 0 <= k < |messages| && StallsOn(ReceiveAll(s, messages[..k]), messages[k])
    case _ => false
  }

  // ---------------------------------------------------------------------------------------------
  // What requests, flushes and advice do to the queued handshakes
  // ---------------------------------------------------------------------------------------------

  lemma StillQueued(es: seq<Entry>, e: Entry)
    ensures HandshakeQueued(es + [e]) <==> HandshakeQueued(es) || e.handler == RecvHandshake
  {
    var fs := es + [e];
    assert fs[|es|] == e;
    if HandshakeQueued(es) {
      var i :| 0 <= i < |es| && es[i].handler == RecvHandshake;
      assert fs[i] == es[i];
    }
  }

  lemma SameQueued(es: seq<Entry>, fs: seq<Entry>)
    requires SameMessages(es, fs)
    ensures HandshakeQueued(es) <==> HandshakeQueued(fs)
  {
  }

  /** Removing an entry leaves a handshake queued unless it was the only one. */
  lemma RemovedQueued(es: seq<Entry>, i: nat)
    requires i < |es| && HandshakeQueued(es)
    ensures HandshakeQueued(RemoveAt(es, i)) <==> !OnlyHandshake(es, i)
  {
    var fs := RemoveAt(es, i);
    assert forall j :: 0 <= j < i ==> fs[j] == es[j];
    assert forall j :: i < j < |es| ==> fs[j - 1] == es[j];
    if j :| 0 <= j < |es| && j != i && es[j].handler == RecvHandshake {
      assert fs[if j < i then j else j - 1] == es[j];
    }
  }

  lemma PushProgress(s: State, doc: Doc, h: Handler)
    requires Progressing(s)
    ensures Progressing(Push(s, doc, h))
  {
    StillQueued(s.outbox, NewEntry(doc, h, |s.hist.pushed|));
  }

  lemma IssueHandshakeProgress(s: State)
    ensures Progressing(s) ==> Progressing(IssueHandshake(s))
    ensures s.phase == Unconnected && s.reconnect != ReconnectNone ==>
      IssueHandshake(s).phase == Connecting && HandshakeQueued(IssueHandshake(s).outbox)
  {
    StillQueued(s.outbox, NewEntry(HandshakeDoc(), RecvHandshake, |s.hist.pushed|));
  }

  lemma IssueConnectProgress(s: State)
    ensures Progressing(s) ==> Progressing(IssueConnect(s))
    ensures s.phase == Unconnected && s.reconnect != ReconnectNone ==>
      IssueConnect(s).phase == Connecting && HandshakeQueued(IssueConnect(s).outbox)
  {
    hide IssueHandshake, HandshakeQueued;
    IssueHandshakeProgress(s);
    var t := IssueHandshake(s);
    StillQueued(t.outbox, NewEntry(ConnectDoc(), RecvConnect, |t.hist.pushed|));
  }

  lemma CallProgress(s: State, call: ApiCall)
    requires Progressing(s)
    ensures Progressing(DoCall(s, call))
  {
    hide IssueConnect, Matching, HandshakeQueued;
    IssueConnectProgress(Noted(s, call));
    PushProgress(IssueConnect(Noted(s, call)), DocOf(call), HandlerOf(call));
  }

  lemma FlushProgress(s: State)
    requires Progressing(s)
    ensures Progressing(FlushTimerFires(s))
  {
    hide FlushTimerFires, HandshakeQueued;
    FlushFrame(s);
    FlushSameMessages(s);
    SameQueued(s.outbox, FlushTimerFires(s).outbox);
  }

  lemma SendErrProgress(s: State, batchId: Word)
    requires Progressing(s)
    ensures Progressing(BatchSendErr(s, batchId))
  {
    hide BatchSendErr, HandshakeQueued;
    SendErrFrame(s, batchId);
    SendErrSameMessages(s, batchId);
    SameQueued(s.outbox, BatchSendErr(s, batchId).outbox);
  }

  lemma AdviceProgress(s: State, m: Incoming)
    requires Progressing(s)
    ensures var t := HandleAdvice(s, m);
      && Progressing(t) && t.outbox == s.outbox
      && (t.phase == Connecting <==> s.phase == Connecting && TakeAdvice(s, m).reconnect != ReconnectHandshake)
  {
    hide ReconnectOf;
  }

  /** A timer that fires stops the session exactly when it was the last one and advice is `none`. */
  lemma TimersProgress(s: State)
    requires Progressing(s)
    ensures s.connectTimer ==> (Progressing(ConnectTimerFires(s)) <==> !StallsAt(s, ConnectTimeout))
    ensures s.handshakeTimer ==> (Progressing(HandshakeTimerFires(s)) <==> !StallsAt(s, HandshakeTimeout))
  {
    hide HandshakeQueued;
    IssueConnectProgress(ConnectTimerDue(s));
    IssueHandshakeProgress(s.(handshakeTimer := false));
  }

  // ---------------------------------------------------------------------------------------------
  // Replies
  // ---------------------------------------------------------------------------------------------

  lemma HandlerPhase(s: State, h: Handler, m: Incoming)
    ensures var t := Handle(s, h, m);
      if h == RecvHandshake && m.successful.Some?
      then t.phase == Connected || (t.phase == Unconnected && t.handshakeTimer)
      else t.phase == s.phase && t.handshakeTimer == s.handshakeTimer && (s.connectTimer ==> t.connectTimer)
  {
  }

  lemma ReplyProgress(s: State, m: Incoming)
    requires Progressing(s)
    ensures !Progressing(Reply(s, m)) <==>
      && m.id.Some? && m.successful.None? && s.phase == Connecting
      && OnlyHandshake(s.outbox, Find(s.outbox, ParseId(m.id.value)))
  {
    hide Find, ParseId, HandshakeReply, HandshakeQueued;
    ReplyFrame(s, m);
    if m.id.Some? && Find(s.outbox, ParseId(m.id.value)) >= 0 {
      var i := Find(s.outbox, ParseId(m.id.value));
      var h := s.outbox[i].handler;
      HandlerPhase(s, h, m);
      assert Reply(s, m) == Remove(Handle(s, h, m), i);
      if HandshakeQueued(s.outbox) {
        RemovedQueued(s.outbox, i);
      }
    }
  }

  lemma EventProgress(s: State, m: Incoming)
    requires Progressing(s) && m.data.Some?
    ensures Progressing(RecvEvent(s, m))
  {
    var ok := (a: Action) => a.Calling? || a.CallingBack?;
    forall t, a | Progressing(t) && ok(a) ensures Progressing(Act(t, a)) {
      if a.Calling? {
        CallProgress(t, a.call);
      }
    }
    if m.channel.Some? {
      var regs := Matching(s.subs, m.channel.value);
      DeliverPreserves(Progressing, ok, s, regs, m, |regs|);
    }
  }

  /** A message stops the session exactly when it is one of those above. */
  lemma ReceiveProgress(s: State, m: Incoming)
    requires Progressing(s)
    ensures Progressing(Receive(s, m)) <==> !StallsOn(s, m)
  {
    hide Find, ParseId, RecvEvent, Reply, HandleAdvice, Progressing;
    AdviceProgress(s, m);
    if m.data.Some? {
      EventProgress(HandleAdvice(s, m), m);
    } else {
      ReplyProgress(HandleAdvice(s, m), m);
    }
  }

  // ---------------------------------------------------------------------------------------------
  // Runs
  // ---------------------------------------------------------------------------------------------

  /** The session is on its way after the event and, if it brings messages, after each of them. */
  ghost predicate KeepsGoing(s: State, e: Event) {
    && Progressing(Step(s, e))
    && (e.MessagesArrive? ==>
          forall k :: 0 <= k <= |e.messages| ==> Progressing(ReceiveAll(s, e.messages[..k])))
  }

  lemma {:induction false} ReceiveAllProgress(s: State, ms: seq<Incoming>, n: nat)
    requires Progressing(s) && n <= |ms|
    requires forall k :: 0 <= k < n ==> !StallsOn(ReceiveAll(s, ms[..k]), ms[k])
    ensures Progressing(ReceiveAll(s, ms[..n]))
  {
    if n > 0 {
      ReceiveAllProgress(s, ms, n - 1);
      assert ms[..n][..n - 1] == ms[..n - 1];
      ReceiveProgress(ReceiveAll(s, ms[..n - 1]), ms[n - 1]);
    }
  }

  lemma StallStops(s: State, ms: seq<Incoming>, k: nat)
    requires k < |ms| && StallsOn(ReceiveAll(s, ms[..k]), ms[k]) && Progressing(ReceiveAll(s, ms[..k]))
    ensures !Progressing(ReceiveAll(s, ms[..k + 1]))
  {
    hide Progressing, StallsOn;
    assert ms[..k + 1][..k] == ms[..k];
    ReceiveProgress(ReceiveAll(s, ms[..k]), ms[k]);
  }

  lemma MessagesProgress(s: State, ms: seq<Incoming>)
    requires Progressing(s)
    ensures KeepsGoing(s, MessagesArrive(ms)) <==> !StallsAt(s, MessagesArrive(ms))
  {
    hide ReceiveAll, StallsOn;
    if StallsAt(s, MessagesArrive(ms)) {
      var k :| 0 <= k < |ms| && StallsOn(ReceiveAll(s, ms[..k]), ms[k]);
      if KeepsGoing(s, MessagesArrive(ms)) {
        StallStops(s, ms, k);
        assert false;
      }
    } else {
      forall k | 0 <= k <= |ms| ensures Progressing(ReceiveAll(s, ms[..k])) {
        ReceiveAllProgress(s, ms, k);
      }
      assert ms[..|ms|] == ms;
    }
  }

  lemma StepProgress(s: State, e: Event)
    requires Progressing(s)
    ensures KeepsGoing(s, e) <==> !StallsAt(s, e)
  {
    hide Progressing, DoCall, ConnectTimerFires, FlushTimerFires, HandshakeTimerFires, BatchSendErr, BatchRecv;
    match e
    case CallApi(call) => CallProgress(s, call);
    case ConnectTimeout => TimersProgress(s);
    case FlushTimeout => FlushProgress(s);
    case HandshakeTimeout => TimersProgress(s);
    case MessagesArrive(messages) => MessagesProgress(s, messages);
    case SendFails(batchId) => SendErrProgress(s, batchId);
  }

  ghost predicate AlwaysProgressing(s: State, es: seq<Event>) {
    forall n :: 0 <= n < |es| ==> KeepsGoing(Run(s, es[..n]), es[n])
  }

  ghost predicate NeverStalls(s: State, es: seq<Event>) {
    forall n :: 0 <= n < |es| ==> !StallsAt(Run(s, es[..n]), es[n])
  }

  lemma OneTurnMore(s: State, es: seq<Event>)
    requires es != []
    ensures var n := |es| - 1;
      && (AlwaysProgressing(s, es) <==> AlwaysProgressing(s, es[..n]) && KeepsGoing(Run(s, es[..n]), es[n]))
      && (NeverStalls(s, es) <==> NeverStalls(s, es[..n]) && !StallsAt(Run(s, es[..n]), es[n]))
  {
    hide KeepsGoing, StallsAt, Run;
    var rest := es[..|es| - 1];
    assert forall k :: 0 <= k < |rest| ==> rest[..k] == es[..k] && rest[k] == es[k];
  }

  /** From any state with a session on its way, in every run: it is on its way after every turn and every
      message if and only if the run holds no reply that stalls it and no last timer firing under advice
      `none`. */
  lemma {:induction false} SessionGoesOn(s: State, es: seq<Event>)
    requires Progressing(s)
    ensures AlwaysProgressing(s, es) <==> NeverStalls(s, es)
    ensures NeverStalls(s, es) ==> Progressing(Run(s, es))
  {
    hide Progressing, KeepsGoing, StallsAt, AlwaysProgressing, NeverStalls;
    if es == [] {
      NoTurns(s);
    } else {
      var n := |es| - 1;
      SessionGoesOn(s, es[..n]);
      OneTurnMore(s, es);
      if NeverStalls(s, es[..n]) {
        StepProgress(Run(s, es[..n]), es[n]);
        if KeepsGoing(Run(s, es[..n]), es[n]) {
          KeepsGoingProgress(Run(s, es[..n]), es[n]);
        }
      }
    }
  }

  lemma NoTurns(s: State)
    ensures AlwaysProgressing(s, []) && NeverStalls(s, [])
  {
  }

  lemma KeepsGoingProgress(s: State, e: Event)
    requires KeepsGoing(s, e)
    ensures Progressing(Step(s, e))
  {
  }

  /** The first call puts a session on its way. */
  lemma FirstCallStartsSession(intervalMs: int, call: ApiCall)
    ensures Progressing(DoCall(Init(intervalMs), call))
  {
    hide IssueConnect, Matching, HandshakeQueued;
    var s := Noted(Init(intervalMs), call);
    IssueConnectProgress(s);
    PushProgress(IssueConnect(s), DocOf(call), HandlerOf(call));
  }

  /** Either timer queues a handshake unless advice is `none`. */
  lemma TimersStartSessions(s: State)
    requires s.phase == Unconnected && s.reconnect != ReconnectNone
    ensures HandshakeQueued(ConnectTimerFires(s).outbox) && ConnectTimerFires(s).phase == Connecting
    ensures HandshakeQueued(HandshakeTimerFires(s).outbox) && HandshakeTimerFires(s).phase == Connecting
  {
    hide HandshakeQueued, IssueHandshake, IssueConnect;
    IssueConnectProgress(ConnectTimerDue(s));
    IssueHandshakeProgress(s.(handshakeTimer := false));
  }

  // ---------------------------------------------------------------------------------------------
  // A refused handshake is retried
  // ---------------------------------------------------------------------------------------------

  ghost predicate ShakenSince(pushed: seq<Pushed>, from: nat) {
    exists k :: from <= k < |pushed| && pushed[k].handler == RecvHandshake
  }

  /** Another handshake has been queued, or one that was queued before has been answered. */
  ghost predicate Settled(s: State, from: nat, answered: nat) {
    && from <= |s.hist.pushed| && answered <= |s.hist.dispatched|
    && (ShakenSince(s.hist.pushed, from) || AnsweredSince(s.hist.dispatched, answered))
  }

  /** Or the handshake timer is pending and will queue one. */
  ghost predicate RetryComing(s: State, from: nat, answered: nat) {
    && from <= |s.hist.pushed| && answered <= |s.hist.dispatched| && s.reconnect != ReconnectNone
    && (Settled(s, from, answered) || (s.phase == Unconnected && s.handshakeTimer))
  }

  predicate NotSilencing(a: Action) {
    a.Advising? && a.m.advice.Some? && a.m.advice.value.reconnect.Some? ==> a.m.advice.value.reconnect.value != "none"
  }

  predicate Requesting(a: Action) {
    a.Calling? || a.ConnectFiring? || a.HandshakeFiring?
  }

  /** Calls and timers queue a handshake first when no session is under way. */
  lemma ShakesFirst(s: State, a: Action)
    requires WillShake(s) && Requesting(a)
    ensures var n := |s.hist.pushed|;
      |Act(s, a).hist.pushed| > n && Act(s, a).hist.pushed[n].handler == RecvHandshake
  {
    hide Act, ReadRequest, ForCall, ConnectDue;
    QueuesExactly(s, a);
    var t, n := Act(s, a), |s.hist.pushed|;
    assert Queues(s, a)[0] == HANDSHAKE;
    assert ReadAll(t.hist.pushed)[n] == Queues(s, a)[0];
  }

  lemma DispatchedGrows(s: State, a: Action)
    ensures s.hist.dispatched <= Act(s, a).hist.dispatched
  {
    hide DoCall, ConnectTimerFires, HandshakeTimerFires, FlushTimerFires, BatchSendErr, Reply, HandleAdvice;
    match a
    case Calling(call) => RequestsAnswerNothing(s, a);
    case Replying(m) => ReplyFrame(s, m);
    case ConnectFiring => RequestsAnswerNothing(s, a);
    case FlushFiring => FlushFrame(s);
    case HandshakeFiring => RequestsAnswerNothing(s, a);
    case Failing(batchId) => SendErrFrame(s, batchId);
    case _ => QuietFrame(s, a);
  }

  lemma RequestsAnswerNothing(s: State, a: Action)
    requires Requesting(a)
    ensures Act(s, a).hist.dispatched == s.hist.dispatched && Act(s, a).reconnect == s.reconnect
  {
    hide DoCall, ConnectTimerFires, HandshakeTimerFires, Waiters;
    if a.Calling? {
      CallEffects(s, a.call);
    } else {
      TimerEffects(s);
    }
  }

  lemma StaysSettled(s: State, a: Action, from: nat, answered: nat)
    requires Settled(s, from, answered)
    ensures Settled(Act(s, a), from, answered)
  {
    hide Act;
    DispatchedGrows(s, a);
    ActKeepsPushed(s, a);
    var t := Act(s, a);
    if ShakenSince(s.hist.pushed, from) {
      var k :| from <= k < |s.hist.pushed| && s.hist.pushed[k].handler == RecvHandshake;
      assert t.hist.pushed[k] == s.hist.pushed[k];
    } else {
      var k :| answered <= k < |s.hist.dispatched| && s.hist.dispatched[k].handler == RecvHandshake;
      assert t.hist.dispatched[k] == s.hist.dispatched[k];
    }
  }

  lemma RequestSettles(s: State, a: Action, from: nat, answered: nat)
    requires RetryComing(s, from, answered) && WillShake(s) && Requesting(a)
    ensures Settled(Act(s, a), from, answered)
  {
    hide Act;
    DispatchedGrows(s, a);
    ShakesFirst(s, a);
  }

  lemma ReplyRetryComing(s: State, m: Incoming, from: nat, answered: nat)
    requires RetryComing(s, from, answered) && !Settled(s, from, answered)
    ensures RetryComing(Reply(s, m), from, answered)
  {
    hide Reply, Find, ParseId;
    ReplyEffects(s, m);
    if Answers(s, m, RecvHandshake) {
      assert Reply(s, m).hist.dispatched[|s.hist.dispatched|].handler == RecvHandshake;
    }
  }

  lemma NotSilenced(s: State, a: Action)
    requires s.reconnect != ReconnectNone && NotSilencing(a)
    ensures Act(s, a).reconnect != ReconnectNone
  {
    hide DoCall, ConnectTimerFires, HandshakeTimerFires, FlushTimerFires, BatchSendErr, Reply;
    match a
    case Calling(call) => RequestsAnswerNothing(s, a);
    case CallingBack(callback) =>
    case Advising(m) =>
    case Replying(m) => ReplyFrame(s, m);
    case Waking =>
    case ConnectFiring => RequestsAnswerNothing(s, a);
    case FlushFiring => FlushFrame(s);
    case HandshakeFiring => RequestsAnswerNothing(s, a);
    case Failing(batchId) => SendErrFrame(s, batchId);
  }

  lemma ActRetryComing(s: State, a: Action, from: nat, answered: nat)
    requires RetryComing(s, from, answered) && NotSilencing(a)
    ensures RetryComing(Act(s, a), from, answered)
  {
    hide DoCall, ConnectTimerFires, HandshakeTimerFires, FlushTimerFires, BatchSendErr, Reply, HandleAdvice,
         ShakenSince, AnsweredSince;
    NotSilenced(s, a);
    if Settled(s, from, answered) {
      StaysSettled(s, a, from, answered);
    } else if Requesting(a) {
      RequestSettles(s, a, from, answered);
    } else {
      match a
      case Replying(m) => ReplyRetryComing(s, m, from, answered);
      case Advising(m) => AdviceEffects(s, m);
      case FlushFiring => FlushFrame(s);
      case Failing(batchId) => SendErrFrame(s, batchId);
      case CallingBack(callback) =>
      case Waking =>
    }
  }

  lemma {:induction false} RetryKeepsComing(s: State, from: nat, answered: nat, es: seq<Event>)
    requires RetryComing(s, from, answered) && NeverSilenced(es)
    ensures RetryComing(Run(s, es), from, answered)
  {
    var inv := (t: State) => RetryComing(t, from, answered);
    forall t, a | inv(t) && NotSilencing(a) ensures inv(Act(t, a)) {
      ActRetryComing(t, a, from, answered);
    }
    Everywhere(inv, NotSilencing, s, es);
  }

  lemma StepStaysSettled(s: State, e: Event, from: nat, answered: nat)
    requires Settled(s, from, answered)
    ensures Settled(Step(s, e), from, answered)
  {
    var inv := (t: State) => Settled(t, from, answered);
    forall t, a | inv(t) && Anything(a) ensures inv(Act(t, a)) {
      StaysSettled(t, a, from, answered);
    }
    hide Step, Act, Settled;
    StepPreserves(inv, Anything, s, e);
  }

  lemma TimerSettles(s: State, from: nat, answered: nat)
    requires RetryComing(s, from, answered)
    ensures Settled(Step(s, HandshakeTimeout), from, answered)
  {
    if Settled(s, from, answered) {
      StepStaysSettled(s, HandshakeTimeout, from, answered);
    } else {
      RequestSettles(s, HandshakeFiring, from, answered);
    }
  }

  lemma {:induction false} TimerHasSettled(s: State, from: nat, answered: nat, es: seq<Event>)
    requires RetryComing(s, from, answered) && NeverSilenced(es) && HandshakeTimeout in es
    ensures Settled(Run(s, es), from, answered)
  {
    hide Step, Settled, RetryComing;
    var rest, e := es[..|es| - 1], es[|es| - 1];
    if e == HandshakeTimeout {
      RetryKeepsComing(s, from, answered, rest);
      TimerSettles(Run(s, rest), from, answered);
    } else {
      assert es == rest + [e];
      TimerHasSettled(s, from, answered, rest);
      StepStaysSettled(Run(s, rest), e, from, answered);
    }
  }

  /** No message of the run advises `none`. */
  predicate NeverSilenced(es: seq<Event>) {
    forall e :: e in es && e.MessagesArrive? ==> forall m :: m in e.messages ==> NotSilencing(Advising(m))
  }

  /** After a handshake has been refused, in every continuation without advice `none`: the handshake timer
      stays pending until another handshake is queued or another that was queued before is answered, and once
      it has fired that is so. */
  lemma {:induction false} RefusedIsRetried(s: State, m: Incoming, more: seq<Event>)
    requires m.data.None? && Answers(s, m, RecvHandshake) && Refuses(m)
    requires Receive(s, m).reconnect != ReconnectNone && NeverSilenced(more)
    ensures var u := BatchRecv(s, [m]);
      var t := Run(u, more);
      && u.phase == Unconnected && u.handshakeTimer
      && (Settled(t, |u.hist.pushed|, |u.hist.dispatched|) ||
          (t.phase == Unconnected && t.handshakeTimer && t.reconnect != ReconnectNone))
      && (HandshakeTimeout in more ==> Settled(t, |u.hist.pushed|, |u.hist.dispatched|))
  {
    hide Receive, Answers, Run;
    var u := BatchRecv(s, [m]);
    assert [m][..0] == [];
    assert ReceiveAll(s, [m]) == Receive(ReceiveAll(s, [m][..0]), m);
    MessageEffects(s, m);
    var from, answered := |u.hist.pushed|, |u.hist.dispatched|;
    RetryKeepsComing(u, from, answered, more);
    if HandshakeTimeout in more {
      TimerHasSettled(u, from, answered, more);
    }
  }
}
