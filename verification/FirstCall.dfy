/** When the first session's gate holds: always, behind a transport that only responds; and in the engine
    by itself exactly when the client may issue a handshake at its first call. */
module FirstCall {
  import opened Ids
  import opened Documents
  import opened Engine
  import opened Runs
  import opened Ledger
  import opened Handshaking

  /** Nothing has been queued yet; at most empty texts have been sent. */
  ghost predicate Untouched(s: State) {
    && s.outbox == [] && s.phase == Unconnected && s.handshakeIndex == -1 && s.subs == []
    && HandshakesOnly(s.hist.sent) && s.hist.dispatched == []
  }

  /** What holds before the first call, whatever the server sends. */
  ghost predicate Early(s: State) {
    if s.hist.pushed == [] then Untouched(s) else GateHolds(s)
  }

  ghost predicate GatedAndQueued(s: State) {
    GateHolds(s) && s.hist.pushed != []
  }

  /** Whatever has been queued stays on record. */
  lemma ActKeepsPushed(s: State, a: Action)
    ensures s.hist.pushed <= Act(s, a).hist.pushed
  {
    hide DoCall, ConnectTimerFires, FlushTimerFires, HandshakeTimerFires, BatchSendErr, Reply, HandleAdvice;
    match a
    case Calling(call) => CallKeepsPushed(s, call);
    case Replying(m) => ReplyFrame(s, m);
    case ConnectFiring => TimersKeepPushed(s);
    case FlushFiring => FlushFrame(s);
    case HandshakeFiring => TimersKeepPushed(s);
    case Failing(batchId) => SendErrFrame(s, batchId);
    case _ => QuietFrame(s, a);
  }

  lemma CallKeepsPushed(s: State, call: ApiCall)
    ensures s.hist.pushed <= DoCall(s, call).hist.pushed
  {
    hide IssueConnect, Matching;
    IssueKeepsPushed(Noted(s, call));
  }

  lemma TimersKeepPushed(s: State)
    ensures s.hist.pushed <= ConnectTimerFires(s).hist.pushed
    ensures s.hist.pushed <= HandshakeTimerFires(s).hist.pushed
  {
    hide IssueConnect, IssueHandshake;
    IssueKeepsPushed(ConnectTimerDue(s));
    IssueKeepsPushed(s.(handshakeTimer := false));
  }

  lemma IssueHandshakeKeepsPushed(s: State)
    ensures s.hist.pushed <= IssueHandshake(s).hist.pushed
  {
  }

  lemma IssueKeepsPushed(s: State)
    ensures s.hist.pushed <= IssueHandshake(s).hist.pushed
    ensures s.hist.pushed <= IssueConnect(s).hist.pushed
  {
    hide IssueHandshake;
    IssueHandshakeKeepsPushed(s);
  }

  lemma GatePreserved()
    ensures Preserves(GatedAndQueued, ValidDataFreeReply)
  {
    hide GateHolds, Act;
    forall s, a | GatedAndQueued(s) && ValidDataFreeReply(a) ensures GatedAndQueued(Act(s, a)) {
      ActGate(s, a);
      ActKeepsPushed(s, a);
    }
  }

  lemma UntouchedReceive(s: State, m: Incoming)
    requires Untouched(s)
    ensures Untouched(Receive(s, m)) && Receive(s, m).hist == s.hist
  {
    hide ParseId, ReconnectOf;
    var t := HandleAdvice(s, m);
    AdvisedUntouched(s, m);
    hide HandleAdvice;
    if m.data.Some? && m.channel.Some? {
      assert Matching(t.subs, m.channel.value) == [];
    }
  }

  lemma AdvisedUntouched(s: State, m: Incoming)
    requires Untouched(s)
    ensures Untouched(HandleAdvice(s, m)) && HandleAdvice(s, m).hist == s.hist
  {
    hide ReconnectOf;
  }

  lemma {:induction false} UntouchedReceiveAll(s: State, ms: seq<Incoming>)
    requires Untouched(s)
    ensures Untouched(ReceiveAll(s, ms)) && ReceiveAll(s, ms).hist == s.hist
  {
    hide Untouched;
    if ms != [] {
      UntouchedReceiveAll(s, ms[..|ms| - 1]);
      UntouchedReceive(ReceiveAll(s, ms[..|ms| - 1]), ms[|ms| - 1]);
    }
  }

  /** A first connect attempt starts with a handshake, or does nothing at all. */
  lemma UntouchedIssue(s: State)
    requires Untouched(s) && s.hist.pushed == []
    ensures s.reconnect == ReconnectNone ==> IssueHandshake(s) == s == IssueConnect(s)
    ensures s.reconnect != ReconnectNone ==>
      GatedAndQueued(IssueHandshake(s)) && GatedAndQueued(IssueConnect(s))
  {
    if s.reconnect != ReconnectNone {
      FirstHandshakeGate(s);
      FirstConnectGate(s);
      IssueQueues(s);
    }
  }

  lemma IssueQueues(s: State)
    requires s.phase == Unconnected && s.reconnect != ReconnectNone
    ensures IssueHandshake(s).hist.pushed != [] && IssueConnect(s).hist.pushed != []
  {
  }

  lemma UntouchedStep(s: State, e: Event)
    requires Untouched(s) && s.hist.pushed == [] && !e.CallApi?
    ensures Early(Step(s, e))
  {
    hide IssueHandshake, IssueConnect, ReceiveAll, GateHolds;
    match e
    case ConnectTimeout => UntouchedIssue(ConnectTimerDue(s));
    case FlushTimeout =>
    case HandshakeTimeout => UntouchedIssue(s.(handshakeTimer := false));
    case MessagesArrive(messages) => UntouchedReceiveAll(s, messages);
    case SendFails(batchId) =>
  }

  predicate NoCalls(es: seq<Event>) {
    forall e :: e in es ==> !e.CallApi?
  }

  lemma {:induction false} EarlyRuns(intervalMs: int, es: seq<Event>)
    requires NoCalls(es) && ValidReplies(es)
    ensures Early(Run(Init(intervalMs), es))
  {
    hide Step, GateHolds, Untouched;
    if es == [] {
      NewIsUntouched(intervalMs);
    } else {
      var e, s := es[|es| - 1], Run(Init(intervalMs), es[..|es| - 1]);
      assert e in es;
      EarlyRuns(intervalMs, es[..|es| - 1]);
      if s.hist.pushed == [] {
        UntouchedStep(s, e);
      } else {
        GatePreserved();
        StepPreserves(GatedAndQueued, ValidDataFreeReply, s, e);
      }
    }
  }

  lemma NewIsUntouched(intervalMs: int)
    ensures Untouched(Init(intervalMs))
  {
  }

  lemma CallsGate(s: State, call: ApiCall)
    requires Early(s) && (s.hist.pushed != [] || s.reconnect != ReconnectNone)
    ensures GateHolds(DoCall(s, call))
  {
    hide IssueConnect, GateHolds, Matching;
    if s.hist.pushed == [] {
      var t := Noted(s, call);
      FirstConnectGate(t);
      PushGate(IssueConnect(t), DocOf(call), HandlerOf(call));
      WakingKeepsGate(Push(IssueConnect(t), DocOf(call), HandlerOf(call)));
    } else {
      CallGate(s, call);
    }
  }

  lemma WakingKeepsGate(s: State)
    requires GateHolds(s)
    ensures GateHolds(ScheduleFlush(s))
  {
  }

  /** With nothing queued and advice `none`, the call's own message is alone in the queue. */
  lemma SilencedCall(s: State, call: ApiCall)
    requires Untouched(s) && s.hist.pushed == [] && s.reconnect == ReconnectNone
    ensures var t := DoCall(s, call);
      && t.outbox == [NewEntry(DocOf(call), HandlerOf(call), 0)]
      && t.flushTimer && t.handshakeIndex == -1 && t.hist.dispatched == []
  {
    hide Matching;
    assert IssueConnect(Noted(s, call)) == Noted(s, call);
  }

  lemma NoCallIsHandshake(call: ApiCall)
    ensures DocOf(call) != HandshakeDoc()
  {
    assert "version" in HandshakeDoc() && "version" !in DocOf(call);
  }

  lemma SilencedFlush(s: State, call: ApiCall)
    requires s.outbox == [NewEntry(DocOf(call), HandlerOf(call), 0)]
    requires s.flushTimer && s.handshakeIndex == -1
    ensures var t := Step(s, FlushTimeout);
      t.hist.dispatched == s.hist.dispatched && !HandshakesOnly(t.hist.sent)
  {
    var u := s.(flushTimer := false);
    var e := StampedAt(u, 0);
    assert ItemsUpTo(u, 0) == [];
    assert ItemsUpTo(u, 1) == [SentItem(0, e.doc)];
    LabellingKeepsTheRest(DocOf(call), e.msgId, u.clientId);
    NoCallIsHandshake(call);
    assert !HandshakeOnly(Step(s, FlushTimeout).hist.sent[|s.hist.sent|]);
  }

  /** Nothing but handshakes has been sent, unless a handshake has been answered. */
  ghost predicate GateKept(s: State) {
    !HandshakeAnswered(s.hist.dispatched) ==> HandshakesOnly(s.hist.sent)
  }

  lemma {:induction false} GateKeptForever(s: State, es: seq<Event>)
    requires GateHolds(s) && ValidReplies(es)
    ensures GateKept(Run(s, es))
  {
    forall t, a | GateHolds(t) && ValidDataFreeReply(a) ensures GateHolds(Act(t, a)) {
      ActGate(t, a);
    }
    Everywhere(GateHolds, ValidDataFreeReply, s, es);
  }

  lemma {:induction false} SilencedCallBreaksGate(s: State, call: ApiCall)
    requires Untouched(s) && s.hist.pushed == [] && s.reconnect == ReconnectNone
    ensures !GateKept(Run(DoCall(s, call), [FlushTimeout]))
  {
    hide Step, DoCall, HandshakesOnly;
    SilencedCall(s, call);
    var t := DoCall(s, call);
    SilencedFlush(t, call);
    var es := [FlushTimeout];
    assert es[..0] == [];
    assert Run(t, es) == Step(Run(t, es[..0]), FlushTimeout);
  }

  /** Whatever the server sends before the application's first call, the gate holds in every
      continuation if and only if, at that call, something has been queued already or the server's
      advice is not `none`. */
  lemma {:induction false} FirstCallDecides(intervalMs: int, before: seq<Event>, call: ApiCall)
    requires NoCalls(before) && ValidReplies(before)
    ensures var s := Run(Init(intervalMs), before);
      (forall es :: ValidReplies(es) ==> GateKept(Run(DoCall(s, call), es)))
      <==> (s.hist.pushed != [] || s.reconnect != ReconnectNone)
  {
    hide DoCall, GateHolds, GateKept, Untouched;
    var s := Run(Init(intervalMs), before);
    EarlyRuns(intervalMs, before);
    hide Run;
    if s.hist.pushed != [] || s.reconnect != ReconnectNone {
      CallsGate(s, call);
      forall es | ValidReplies(es) ensures GateKept(Run(DoCall(s, call), es)) {
        GateKeptForever(DoCall(s, call), es);
      }
    } else {
      SilencedCallBreaksGate(s, call);
      assert ValidReplies([FlushTimeout]);
    }
  }

  // ---------------------------------------------------------------------------------------------
  // The gate behind a transport that only responds
  // ---------------------------------------------------------------------------------------------

  lemma NewIsQuiet(intervalMs: int, e: Event)
    requires !e.CallApi? && !e.MessagesArrive? && !e.SendFails?
    ensures Step(Init(intervalMs), e) == Init(intervalMs)
  {
  }

  /** Before the application's first call nothing happens at all. */
  lemma {:induction false} NothingBeforeFirstCall(intervalMs: int, es: seq<Event>)
    requires NoCalls(es) && Timely(Init(intervalMs), es)
    ensures Run(Init(intervalMs), es) == Init(intervalMs)
  {
    hide Step;
    if es != [] {
      var e := es[|es| - 1];
      assert e in es;
      TimelyPrefix(Init(intervalMs), es);
      NothingBeforeFirstCall(intervalMs, es[..|es| - 1]);
      NewIsQuiet(intervalMs, e);
    }
  }

  lemma {:induction false} GateFollowsFirstCall(intervalMs: int, es: seq<Event>)
    requires ValidReplies(es) && Timely(Init(intervalMs), es)
    ensures var s := Run(Init(intervalMs), es); s == Init(intervalMs) || GateHolds(s)
  {
    hide Step, GateHolds;
    if es != [] {
      var e, s := es[|es| - 1], Run(Init(intervalMs), es[..|es| - 1]);
      assert e in es;
      TimelyPrefix(Init(intervalMs), es);
      GateFollowsFirstCall(intervalMs, es[..|es| - 1]);
      if s == Init(intervalMs) {
        FirstTurn(intervalMs, e);
      } else {
        GateStays(s, e);
      }
    }
  }

  lemma FirstTurn(intervalMs: int, e: Event)
    requires !e.MessagesArrive? && !e.SendFails?
    ensures var s := Step(Init(intervalMs), e); s == Init(intervalMs) || GateHolds(s)
  {
    hide GateHolds, Step;
    match e
    case CallApi(call) =>
      FirstCallGate(intervalMs, call);
      CallIsStep(Init(intervalMs), call);
    case _ => NewIsQuiet(intervalMs, e);
  }

  lemma CallIsStep(s: State, call: ApiCall)
    ensures Step(s, CallApi(call)) == DoCall(s, call)
  {
  }

  lemma GateStays(s: State, e: Event)
    requires GateHolds(s) && ValidReplies([e])
    ensures GateHolds(Step(s, e))
  {
    forall t, a | GateHolds(t) && ValidDataFreeReply(a) ensures GateHolds(Act(t, a)) {
      ActGate(t, a);
    }
    hide GateHolds, Step, Act;
    assert e in [e];
    StepPreserves(GateHolds, ValidDataFreeReply, s, e);
  }

  /** In every run behind such a transport, whenever the first call comes and whatever the server advises:
      nothing but single handshakes is sent until a handshake has been answered. */
  lemma {:induction false} GateAlwaysHolds(intervalMs: int, es: seq<Event>)
    requires ValidReplies(es) && Timely(Init(intervalMs), es)
    ensures var s := Run(Init(intervalMs), es);
      !HandshakeAnswered(s.hist.dispatched) ==> HandshakesOnly(s.hist.sent)
  {
    GateFollowsFirstCall(intervalMs, es);
  }
}
