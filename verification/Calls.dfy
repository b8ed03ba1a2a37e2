/** What the application asks for in a run, through the API and from inside its callbacks, and who is told
    of an event in consequence. */
module Calls {
  import opened Documents
  import opened Engine
  import opened Runs
  import opened Ledger
  import opened Channels
  import opened Subscriptions

  // ---------------------------------------------------------------------------------------------
  // The calls of a run
  // ---------------------------------------------------------------------------------------------

  /** What the application calls from inside the first `n` callbacks for a message. */
  function ReactionsTo(m: Incoming, n: nat): seq<ApiCall> {
    if n == 0 then [] else ReactionsTo(m, n - 1) + m.Reaction(n - 1)
  }

  /** How many callbacks a message leads to. */
  ghost function CallbacksMade(s: State, m: Incoming): nat {
    var was, now := |s.hist.calls|, |Receive(s, m).hist.calls|;
    if now >= was then now - was else 0
  }

  ghost function CallsOnAll(s: State, ms: seq<Incoming>): seq<ApiCall> {
    if ms == [] then []
    else
      var rest, m := ms[..|ms| - 1], ms[|ms| - 1];
      CallsOnAll(s, rest) + ReactionsTo(m, CallbacksMade(ReceiveAll(s, rest), m))
  }

  ghost function CallsAt(s: State, e: Event): seq<ApiCall> {
    match e
    case CallApi(call) => [call]
    case MessagesArrive(messages) => CallsOnAll(s, messages)
    case _ => []
  }

  /** All calls that the application makes in a run, in order. */
  ghost function CallsIn(s: State, es: seq<Event>): seq<ApiCall> {
    if es == [] then []
    else CallsIn(s, es[..|es| - 1]) + CallsAt(Run(s, es[..|es| - 1]), es[|es| - 1])
  }

  // ---------------------------------------------------------------------------------------------
  // Logs that follow the calls
  // ---------------------------------------------------------------------------------------------

  /** The entries for some calls, one after the other. */
  function EntriesFor<X>(entry: ApiCall -> seq<X>, calls: seq<ApiCall>): seq<X> {
    if calls == [] then [] else EntriesFor(entry, calls[..|calls| - 1]) + entry(calls[|calls| - 1])
  }

  /** Every call adds its entry to `log`, and nothing else changes it. */
  ghost predicate LogsCalls<X(!new)>(log: State -> seq<X>, entry: ApiCall -> seq<X>) {
    && (forall s, call :: log(DoCall(s, call)) == log(s) + entry(call))
    && (forall s, a: Action :: !a.Calling? ==> log(Act(s, a)) == log(s))
  }

  lemma {:induction false} EntriesJoin<X>(entry: ApiCall -> seq<X>, a: seq<ApiCall>, b: seq<ApiCall>)
    ensures EntriesFor(entry, a + b) == EntriesFor(entry, a) + EntriesFor(entry, b)
  {
    if b == [] {
      assert a + b == a;
    } else {
      EntriesJoin(entry, a, b[..|b| - 1]);
      assert (a + b)[..|a + b| - 1] == a + b[..|b| - 1];
    }
  }

  lemma {:induction false} DoCallsLogs<X(!new)>(log: State -> seq<X>, entry: ApiCall -> seq<X>, s: State,
                                                calls: seq<ApiCall>)
    requires LogsCalls(log, entry)
    ensures log(DoCalls(s, calls)) == log(s) + EntriesFor(entry, calls)
  {
    hide DoCall;
    if calls != [] {
      DoCallsLogs(log, entry, s, calls[..|calls| - 1]);
    }
  }

  lemma CallBackLogs<X(!new)>(log: State -> seq<X>, entry: ApiCall -> seq<X>, s: State, callback: Call)
    requires LogsCalls(log, entry)
    ensures log(CallBack(s, callback)) == log(s)
  {
    assert log(Act(s, CallingBack(callback))) == log(s);
  }

  lemma {:induction false} DeliverLogs<X(!new)>(log: State -> seq<X>, entry: ApiCall -> seq<X>, s: State,
                                                regs: seq<Registration>, m: Incoming, n: nat)
    requires LogsCalls(log, entry) && n <= |regs| && m.data.Some?
    ensures log(Deliver(s, regs, m, n)) == log(s) + EntriesFor(entry, ReactionsTo(m, n))
  {
    hide LogsCalls, DeliverOne, EntriesFor;
    if n == 0 {
      NoEntries(entry);
    } else {
      DeliverLogs(log, entry, s, regs, m, n - 1);
      DeliverOneLogs(log, entry, Deliver(s, regs, m, n - 1), regs[n - 1], m.data.value, m.Reaction(n - 1));
      EntriesJoin(entry, ReactionsTo(m, n - 1), m.Reaction(n - 1));
    }
  }

  lemma NoEntries<X>(entry: ApiCall -> seq<X>)
    ensures EntriesFor(entry, []) == []
  {
  }

  lemma DeliverOneLogs<X(!new)>(log: State -> seq<X>, entry: ApiCall -> seq<X>, s: State, r: Registration,
                                data: string, calls: seq<ApiCall>)
    requires LogsCalls(log, entry)
    ensures log(DeliverOne(s, r, data, calls)) == log(s) + EntriesFor(entry, calls)
  {
    hide LogsCalls, DoCalls, EntriesFor;
    var callback := Call(r.callback, r.context, data);
    CallBackLogs(log, entry, s, callback);
    DoCallsLogs(log, entry, CallBack(s, callback), calls);
  }

  /** A message leads to one callback for each subscription to its channel, if it carries data. */
  lemma CallbacksCount(s: State, m: Incoming)
    ensures CallbacksMade(s, m) ==
      if m.data.Some? && m.channel.Some? then |Matching(s.subs, m.channel.value)| else 0
  {
    if m.data.Some? && m.channel.Some? {
      EventReachesSubscribers(s, m);
    } else {
      hide Find;
      AdviceFrame(s, m);
      ReplyFrame(HandleAdvice(s, m), m);
    }
  }

  lemma ReceiveLogs<X(!new)>(log: State -> seq<X>, entry: ApiCall -> seq<X>, s: State, m: Incoming)
    requires LogsCalls(log, entry)
    ensures log(Receive(s, m)) == log(s) + EntriesFor(entry, ReactionsTo(m, CallbacksMade(s, m)))
  {
    hide Deliver, Matching, CallbacksMade;
    CallbacksCount(s, m);
    AdviceFrame(s, m);
    var t := HandleAdvice(s, m);
    assert log(Act(s, Advising(m))) == log(s);
    if m.data.Some? && m.channel.Some? {
      var regs := Matching(t.subs, m.channel.value);
      DeliverLogs(log, entry, t, regs, m, |regs|);
    } else if m.data.None? {
      assert log(Act(t, Replying(m))) == log(t);
    }
  }

  lemma {:induction false} ReceiveAllLogs<X(!new)>(log: State -> seq<X>, entry: ApiCall -> seq<X>, s: State,
                                                   ms: seq<Incoming>)
    requires LogsCalls(log, entry)
    ensures log(ReceiveAll(s, ms)) == log(s) + EntriesFor(entry, CallsOnAll(s, ms))
  {
    hide LogsCalls, Receive, CallbacksMade;
    if ms != [] {
      var rest, m := ms[..|ms| - 1], ms[|ms| - 1];
      ReceiveAllLogs(log, entry, s, rest);
      ReceiveLogs(log, entry, ReceiveAll(s, rest), m);
      EntriesJoin(entry, CallsOnAll(s, rest), ReactionsTo(m, CallbacksMade(ReceiveAll(s, rest), m)));
    }
  }

  lemma OneEntry<X>(entry: ApiCall -> seq<X>, call: ApiCall)
    ensures EntriesFor(entry, [call]) == entry(call)
  {
    assert [call][..0] == [];
  }

  lemma StepLogs<X(!new)>(log: State -> seq<X>, entry: ApiCall -> seq<X>, s: State, e: Event)
    requires LogsCalls(log, entry)
    ensures log(Step(s, e)) == log(s) + EntriesFor(entry, CallsAt(s, e))
  {
    hide DoCall, ConnectTimerFires, FlushTimerFires, HandshakeTimerFires, BatchSendErr, ReceiveAll, CallsOnAll;
    match e
    case CallApi(call) => OneEntry(entry, call);
    case ConnectTimeout => assert log(Act(s, ConnectFiring)) == log(s);
    case FlushTimeout => assert log(Act(s, FlushFiring)) == log(s);
    case HandshakeTimeout => assert log(Act(s, HandshakeFiring)) == log(s);
    case MessagesArrive(messages) =>
      ReceiveAllLogs(log, entry, s, messages);
      assert log(Act(ReceiveAll(s, messages), Waking)) == log(ReceiveAll(s, messages));
    case SendFails(batchId) => assert log(Act(s, Failing(batchId))) == log(s);
  }

  /** In every run such a log grows by the entries of the calls that the application makes, in order. */
  lemma {:induction false} LogFollowsCalls<X(!new)>(log: State -> seq<X>, entry: ApiCall -> seq<X>, s: State,
                                                    es: seq<Event>)
    requires LogsCalls(log, entry)
    ensures log(Run(s, es)) == log(s) + EntriesFor(entry, CallsIn(s, es))
  {
    hide LogsCalls, Step, CallsAt;
    if es != [] {
      var rest, e := es[..|es| - 1], es[|es| - 1];
      LogFollowsCalls(log, entry, s, rest);
      StepLogs(log, entry, Run(s, rest), e);
      EntriesJoin(entry, CallsIn(s, rest), CallsAt(Run(s, rest), e));
    }
  }

  // ---------------------------------------------------------------------------------------------
  // Subscriptions
  // ---------------------------------------------------------------------------------------------

  /** The subscription that a call asks for, if it does. */
  function AskedFor(call: ApiCall): seq<Registration> {
    match call
    case Subscribe(channel, callback, context) => [Registration(channel, callback, context)]
    case Publish(_, _) => []
    case Unsubscribe(_) => []
  }

  lemma CallRegisters(s: State, call: ApiCall)
    ensures DoCall(s, call).hist.registered == s.hist.registered + AskedFor(call)
  {
    hide IssueConnect, Matching;
    IssueFrame(Noted(s, call));
  }

  lemma OthersRegisterNothing(s: State, a: Action)
    requires !a.Calling?
    ensures Act(s, a).hist.registered == s.hist.registered
  {
    hide FlushTimerFires, BatchSendErr, Reply, HandleAdvice, IssueConnect, IssueHandshake;
    match a
    case Replying(m) => ReplyFrame(s, m);
    case ConnectFiring => IssueFrame(ConnectTimerDue(s));
    case FlushFiring => FlushFrame(s);
    case HandshakeFiring => IssueFrame(s.(handshakeTimer := false));
    case Failing(batchId) => SendErrFrame(s, batchId);
    case _ => QuietFrame(s, a);
  }

  /** In every run, what has been registered is exactly what the subscribe calls asked for, in order. */
  lemma {:induction false} RegistrationsFollowCalls(s: State, es: seq<Event>)
    ensures Run(s, es).hist.registered == s.hist.registered + EntriesFor(AskedFor, CallsIn(s, es))
  {
    var log := (t: State) => t.hist.registered;
    assert LogsCalls(log, AskedFor) by {
      hide DoCall, Act;
      forall t, call ensures log(DoCall(t, call)) == log(t) + AskedFor(call) {
        CallRegisters(t, call);
      }
      forall t, a: Action | !a.Calling? ensures log(Act(t, a)) == log(t) {
        OthersRegisterNothing(t, a);
      }
    }
    LogFollowsCalls(log, AskedFor, s, es);
  }

  // ---------------------------------------------------------------------------------------------
  // Events, end to end
  // ---------------------------------------------------------------------------------------------

  /** The callbacks that some calls subscribe to a channel, in order, as they are called with data. */
  function CallbacksFor(calls: seq<ApiCall>, channel: string, data: string): seq<Call> {
    if calls == [] then []
    else
      var call := calls[|calls| - 1];
      CallbacksFor(calls[..|calls| - 1], channel, data) +
        if call.Subscribe? && call.channel == channel then [Call(call.callback, call.context, data)] else []
  }

  function FirstOf<T>(n: nat, s: seq<T>): seq<T> {
    if |s| <= n then s else s[..n]
  }

  /** The table keeps the first 16 subscriptions of each channel. */
  lemma {:induction false} KeepsFirst(rs: seq<Registration>, name: string)
    ensures Matching(RegisterAll(rs), name) == FirstOf(CHANNEL_LIMIT, Matching(rs, name))
  {
    hide Matching;
    if rs == [] {
      MatchingNothing(name);
    } else {
      var rest, r := rs[..|rs| - 1], rs[|rs| - 1];
      assert rs == rest + [r];
      KeepsFirst(rest, name);
      KeepsFirst(rest, r.channel);
      RegisterNext(rest, r);
      MatchingOneMore(rest, r, name);
      MatchingOneMore(RegisterAll(rest), r, name);
    }
  }

  lemma MatchingNothing(name: string)
    ensures Matching([], name) == []
  {
  }

  lemma CallsOfJoin(a: seq<Registration>, b: seq<Registration>, data: string)
    ensures CallsOf(a + b, data) == CallsOf(a, data) + CallsOf(b, data)
  {
  }

  lemma {:induction false} CallbacksAreMatching(calls: seq<ApiCall>, channel: string, data: string)
    ensures CallsOf(Matching(EntriesFor(AskedFor, calls), channel), data) == CallbacksFor(calls, channel, data)
  {
    hide Matching;
    if calls == [] {
      MatchingNothing(channel);
    } else {
      var rest, call := calls[..|calls| - 1], calls[|calls| - 1];
      CallbacksAreMatching(rest, channel, data);
      var rs := EntriesFor(AskedFor, rest);
      if call.Subscribe? {
        var r := Registration(call.channel, call.callback, call.context);
        MatchingOneMore(rs, r, channel);
        CallsOfJoin(Matching(rs, channel), [r], data);
        assert CallsOf([r], data) == [Call(r.callback, r.context, data)];
      } else {
        assert rs + [] == rs;
      }
    }
  }

  lemma CallsOfFirst(regs: seq<Registration>, data: string)
    ensures CallsOf(FirstOf(CHANNEL_LIMIT, regs), data) == FirstOf(CHANNEL_LIMIT, CallsOf(regs, data))
  {
  }

  /** After every run, an event calls back exactly as the application has asked for with its subscribe
      calls to that channel: the same callbacks and contexts, in order, with the event's data. Beyond 16
      subscriptions to the channel it is the first 16 (the others were written past the array's end). */
  lemma {:induction false} EventsGoWhereAsked(intervalMs: int, es: seq<Event>, m: Incoming)
    requires m.data.Some? && m.channel.Some?
    ensures var s := Run(Init(intervalMs), es);
      Receive(s, m).hist.calls == s.hist.calls +
        FirstOf(CHANNEL_LIMIT, CallbacksFor(CallsIn(Init(intervalMs), es), m.channel.value, m.data.value))
  {
    var s, calls := Run(Init(intervalMs), es), CallsIn(Init(intervalMs), es);
    TableFollowsLog(intervalMs, es);
    RegistrationsFollowCalls(Init(intervalMs), es);
    assert s.hist.registered == EntriesFor(AskedFor, calls);
    hide Run, Matching;
    EventReachesSubscribers(s, m);
    KeepsFirst(s.hist.registered, m.channel.value);
    CallsOfFirst(Matching(s.hist.registered, m.channel.value), m.data.value);
    CallbacksAreMatching(calls, m.channel.value, m.data.value);
  }
}
