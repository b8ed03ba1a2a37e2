/** Events reach the subscribers: the channel table stands for the flat log of subscriptions. */
module Subscriptions {
  import opened Bits
  import opened Ids
  import opened Documents
  import opened Engine
  import opened Runs
  import opened Ledger
  import opened Channels

  function CallsOf(regs: seq<Registration>, data: string): (cs: seq<Call>)
    ensures |cs| == |regs|
  {
    seq(|regs|, k requires 0 <= k < |regs| => Call(regs[k].callback, regs[k].context, data))
  }

  /** Queueing requests calls nothing and leaves the table alone. */
  lemma IssueFrame(s: State)
    ensures var t := IssueHandshake(s);
      t.subs == s.subs && t.hist.registered == s.hist.registered && t.hist.overrun == s.hist.overrun
      && t.hist.calls == s.hist.calls
    ensures var t := IssueConnect(s);
      t.subs == s.subs && t.hist.registered == s.hist.registered && t.hist.overrun == s.hist.overrun
      && t.hist.calls == s.hist.calls
  {
  }

  lemma DoCallCallsNothing(s: State, call: ApiCall)
    ensures DoCall(s, call).hist.calls == s.hist.calls
  {
    hide IssueConnect, Matching;
    IssueFrame(Noted(s, call));
  }

  lemma {:induction false} DoCallsCallNothing(s: State, calls: seq<ApiCall>)
    ensures DoCalls(s, calls).hist.calls == s.hist.calls
  {
    hide DoCall;
    if calls != [] {
      DoCallsCallNothing(s, calls[..|calls| - 1]);
      DoCallCallsNothing(DoCalls(s, calls[..|calls| - 1]), calls[|calls| - 1]);
    }
  }

  lemma {:induction false} DeliverCalls(s: State, regs: seq<Registration>, m: Incoming, n: nat)
    requires n <= |regs| && m.data.Some?
    ensures Deliver(s, regs, m, n).hist.calls == s.hist.calls + CallsOf(regs[..n], m.data.value)
  {
    hide DoCalls;
    if n > 0 {
      DeliverCalls(s, regs, m, n - 1);
      var t := CallBack(Deliver(s, regs, m, n - 1), Call(regs[n - 1].callback, regs[n - 1].context, m.data.value));
      DoCallsCallNothing(t, m.Reaction(n - 1));
      assert regs[..n] == regs[..n - 1] + [regs[n - 1]];
      assert CallsOf(regs[..n], m.data.value) == CallsOf(regs[..n - 1], m.data.value) +
        [Call(regs[n - 1].callback, regs[n - 1].context, m.data.value)];
    }
  }

  /** An event calls exactly the subscriptions that its channel had when it arrived, once each, in the
      order of registration, whatever the callbacks themselves ask for, more subscriptions included. */
  lemma {:induction false} EventReachesSubscribers(s: State, m: Incoming)
    requires m.data.Some? && m.channel.Some?
    ensures Receive(s, m).hist.calls ==
      s.hist.calls + CallsOf(Matching(s.subs, m.channel.value), m.data.value)
  {
    hide Deliver;
    var t := HandleAdvice(s, m);
    AdviceFrame(s, m);
    var regs := Matching(t.subs, m.channel.value);
    DeliverCalls(t, regs, m, |regs|);
    assert regs[..|regs|] == regs;
  }

  // ---------------------------------------------------------------------------------------------
  // The table stands for the log of everything asked for
  // ---------------------------------------------------------------------------------------------

  /** The table holds what registering everything in order leaves, and the overrun flag is up exactly
      when something was left out. */
  ghost predicate TableFollows(s: State) {
    && s.subs == RegisterAll(s.hist.registered)
    && (s.hist.overrun <==> RegisterAll(s.hist.registered) != s.hist.registered)
  }

  lemma {:induction false} RegisteredLength(rs: seq<Registration>)
    ensures |RegisterAll(rs)| <= |rs|
  {
    if rs != [] {
      RegisteredLength(rs[..|rs| - 1]);
    }
  }

  lemma RegisterTable(s: State, r: Registration)
    requires TableFollows(s)
    ensures TableFollows(Register(s, r))
  {
    hide Matching, RegisterAll;
    var rs := s.hist.registered;
    RegisterNext(rs, r);
    RegisteredLength(rs);
    SameTail(RegisterAll(rs), rs, r);
  }

  lemma RegisterNext(rs: seq<Registration>, r: Registration)
    ensures RegisterAll(rs + [r]) ==
      if |Matching(RegisterAll(rs), r.channel)| >= CHANNEL_LIMIT then RegisterAll(rs)
      else RegisterAll(rs) + [r]
  {
    hide Matching;
    assert (rs + [r])[..|rs|] == rs;
  }

  lemma SameTail<T>(a: seq<T>, b: seq<T>, x: T)
    ensures a + [x] == b + [x] <==> a == b
  {
    assert (a + [x])[..|a|] == a && (b + [x])[..|b|] == b;
    if a + [x] == b + [x] {
      assert |a + [x]| == |b + [x]|;
    }
  }

  lemma CallTable(s: State, call: ApiCall)
    requires TableFollows(s)
    ensures TableFollows(DoCall(s, call))
  {
    hide RegisterAll, IssueConnect, Register;
    if call.Subscribe? {
      RegisterTable(s, Registration(call.channel, call.callback, call.context));
    }
    IssueFrame(Noted(s, call));
  }

  lemma ReplyTable(s: State, m: Incoming)
    requires TableFollows(s)
    ensures TableFollows(Reply(s, m))
  {
    hide RegisterAll;
    ReplyFrame(s, m);
    if m.id.Some? && Find(s.outbox, ParseId(m.id.value)) >= 0 {
      HandlerLeavesOutbox(s, s.outbox[Find(s.outbox, ParseId(m.id.value))].handler, m);
    }
  }

  lemma TimersTable(s: State)
    requires TableFollows(s)
    ensures TableFollows(ConnectTimerFires(s)) && TableFollows(HandshakeTimerFires(s))
  {
    hide RegisterAll, IssueConnect, IssueHandshake;
    IssueFrame(ConnectTimerDue(s));
    IssueFrame(s.(handshakeTimer := false));
  }

  lemma FlushTable(s: State)
    requires TableFollows(s)
    ensures TableFollows(FlushTimerFires(s))
  {
    hide RegisterAll, FlushTimerFires;
    FlushFrame(s);
  }

  lemma SendErrTable(s: State, batchId: Word)
    requires TableFollows(s)
    ensures TableFollows(BatchSendErr(s, batchId))
  {
    hide RegisterAll, BatchSendErr;
    SendErrFrame(s, batchId);
  }

  lemma QuietTable(s: State, a: Action)
    requires TableFollows(s) && Quiet(a)
    ensures TableFollows(Act(s, a))
  {
    hide RegisterAll;
    QuietFrame(s, a);
  }

  lemma ActTable(s: State, a: Action)
    requires TableFollows(s)
    ensures TableFollows(Act(s, a))
  {
    hide TableFollows, DoCall, Reply, ConnectTimerFires, FlushTimerFires, HandshakeTimerFires, BatchSendErr;
    match a
    case Calling(call) => CallTable(s, call);
    case Replying(m) => ReplyTable(s, m);
    case ConnectFiring => TimersTable(s);
    case FlushFiring => FlushTable(s);
    case HandshakeFiring => TimersTable(s);
    case Failing(batchId) => SendErrTable(s, batchId);
    case _ => QuietTable(s, a);
  }

  lemma {:induction false} TableFollowsLog(intervalMs: int, es: seq<Event>)
    ensures TableFollows(Run(Init(intervalMs), es))
  {
    forall s, a | TableFollows(s) ensures TableFollows(Act(s, a)) {
      ActTable(s, a);
    }
    Everywhere(TableFollows, Anything, Init(intervalMs), es);
  }

  /** In every state that a client reaches: all subscriptions asked for are in the table, in order,
      exactly when no channel has been given more than 16; otherwise, and only then, the program has
      written past the end of a channel's array. */
  lemma {:induction false} TableIsFaithful(intervalMs: int, es: seq<Event>)
    ensures var s := Run(Init(intervalMs), es);
      && (s.hist.overrun <==> !WithinLimit(s.hist.registered))
      && (!s.hist.overrun ==> s.subs == s.hist.registered)
      && WithinLimit(s.subs)
  {
    TableFollowsLog(intervalMs, es);
    var s := Run(Init(intervalMs), es);
    AllRegisteredExactly(s.hist.registered);
    RegisteredWithinLimit(s.hist.registered);
  }

  // ---------------------------------------------------------------------------------------------
  // Runs in which the table overflows
  // ---------------------------------------------------------------------------------------------

  /** An application that subscribes `n` times to one channel. */
  function SubscribeRun(n: nat): seq<Event> {
    seq(n, k => CallApi(Subscribe("/a", k, 0)))
  }

  function SameChannel(n: nat): seq<Registration> {
    seq(n, k => Registration("/a", k, 0))
  }

  lemma {:induction false} SameChannelMatches(n: nat, name: string)
    ensures Matching(SameChannel(n), name) == if name == "/a" then SameChannel(n) else []
  {
    if n > 0 {
      SameChannelMatches(n - 1, name);
      assert SameChannel(n)[..n - 1] == SameChannel(n - 1);
      assert SameChannel(n) == SameChannel(n - 1) + [Registration("/a", n - 1, 0)];
    }
  }

  lemma {:induction false} SubscribeRunRegisters(n: nat)
    ensures Run(Init(0), SubscribeRun(n)).hist.registered == SameChannel(n)
  {
    hide DoCall;
    if n > 0 {
      SubscribeRunRegisters(n - 1);
      assert SubscribeRun(n)[..n - 1] == SubscribeRun(n - 1);
      SubscribeRegisters(Run(Init(0), SubscribeRun(n - 1)), n - 1);
      assert SameChannel(n) == SameChannel(n - 1) + [Registration("/a", n - 1, 0)];
    }
  }

  lemma SubscribeRegisters(s: State, k: int)
    ensures DoCall(s, Subscribe("/a", k, 0)).hist.registered == s.hist.registered + [Registration("/a", k, 0)]
  {
    hide IssueConnect, Matching;
    IssueFrame(Noted(s, Subscribe("/a", k, 0)));
  }

  /** The seventeenth subscription to a channel is written past the end of its array. */
  lemma SeventeenthOverruns(n: nat)
    ensures Run(Init(0), SubscribeRun(n)).hist.overrun <==> n > 16
  {
    hide Run, Matching;
    TableIsFaithful(0, SubscribeRun(n));
    SubscribeRunRegisters(n);
    forall name ensures |Matching(SameChannel(n), name)| == if name == "/a" then n else 0 {
      SameChannelMatches(n, name);
    }
    assert |Matching(SameChannel(n), "/a")| == n;
  }
}
