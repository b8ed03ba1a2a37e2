/** An induction principle for runs. Whatever holds at the start and survives every action below,
    with application code calling back in at any point, holds after every run. */
module Runs {
  import opened Bits
  import opened Ids
  import opened Documents
  import opened Engine

  /** The pieces that every step of the machine is made of. */
  datatype Action =
    | Calling(call: ApiCall)
    | CallingBack(callback: Call)
    | Advising(m: Incoming)
    | Replying(m: Incoming)
    | Waking
    | ConnectFiring
    | FlushFiring
    | HandshakeFiring
    | Failing(batchId: Word)

  ghost function Act(s: State, a: Action): State {
    match a
    case Calling(call) => DoCall(s, call)
    case CallingBack(callback) => CallBack(s, callback)
    case Advising(m) => HandleAdvice(s, m)
    case Replying(m) => Reply(s, m)
    case Waking => WakeIfWaiting(s)
    case ConnectFiring => ConnectTimerFires(s)
    case FlushFiring => FlushTimerFires(s)
    case HandshakeFiring => HandshakeTimerFires(s)
    case Failing(batchId) => BatchSendErr(s, batchId)
  }

  /** Actions that touch neither the queue nor the ids. */
  predicate Quiet(a: Action) {
    a.CallingBack? || a.Advising? || a.Waking?
  }

  lemma QuietFrame(s: State, a: Action)
    requires Quiet(a)
    ensures var t := Act(s, a);
      && t == s.(phase := t.phase, reconnect := t.reconnect, intervalMs := t.intervalMs,
                 connectTimer := t.connectTimer, flushTimer := t.flushTimer,
                 hist := s.hist.(calls := t.hist.calls))
      && (s.connectTimer ==> t.connectTimer)
  {
    if a.Advising? {
      AdviceFrame(s, a.m);
    }
  }

  lemma AdviceFrame(s: State, m: Incoming)
    ensures var t := HandleAdvice(s, m);
      && t == s.(phase := t.phase, reconnect := t.reconnect, intervalMs := t.intervalMs,
                 connectTimer := t.connectTimer)
      && (s.connectTimer ==> t.connectTimer)
  {
  }

  /** `inv` survives every action that `ok` admits. */
  ghost predicate Preserves(inv: State -> bool, ok: Action -> bool) {
    forall s, a :: inv(s) && ok(a) ==> inv(Act(s, a))
  }

  /** `ok` admits whatever the application does. */
  ghost predicate AdmitsCalls(ok: Action -> bool) {
    && (forall call :: ok(Calling(call)))
    && (forall callback :: ok(CallingBack(callback)))
  }

  /** `ok` admits everything that can happen except, perhaps, some messages and send errors. */
  ghost predicate AdmitsRequests(ok: Action -> bool) {
    AdmitsCalls(ok) && ok(Waking) && ok(ConnectFiring) && ok(FlushFiring) && ok(HandshakeFiring)
  }

  /** `ok` admits the messages and the send error that an event brings. */
  ghost predicate Admits(ok: Action -> bool, e: Event) {
    match e
    case MessagesArrive(messages) =>
      forall m :: m in messages ==> ok(Advising(m)) && (m.data.None? ==> ok(Replying(m)))
    case SendFails(batchId) => ok(Failing(batchId))
    case _ => true
  }

  ghost predicate AdmitsAll(ok: Action -> bool, es: seq<Event>) {
    forall e :: e in es ==> Admits(ok, e)
  }

  lemma {:induction false} CallsPreserve(inv: State -> bool, ok: Action -> bool, s: State, calls: seq<ApiCall>)
    requires Preserves(inv, ok) && AdmitsCalls(ok)
    requires inv(s)
    ensures inv(DoCalls(s, calls))
  {
    if calls != [] {
      var t := DoCalls(s, calls[..|calls| - 1]);
      CallsPreserve(inv, ok, s, calls[..|calls| - 1]);
      assert inv(Act(t, Calling(calls[|calls| - 1])));
    }
  }

  lemma {:induction false} DeliverPreserves(inv: State -> bool, ok: Action -> bool, s: State,
                                            regs: seq<Registration>, m: Incoming, n: nat)
    requires Preserves(inv, ok) && AdmitsCalls(ok)
    requires n <= |regs| && m.data.Some?
    requires inv(s)
    ensures inv(Deliver(s, regs, m, n))
  {
    if n > 0 {
      DeliverPreserves(inv, ok, s, regs, m, n - 1);
      var t := Deliver(s, regs, m, n - 1);
      var callback := Call(regs[n - 1].callback, regs[n - 1].context, m.data.value);
      assert inv(Act(t, CallingBack(callback)));
      CallsPreserve(inv, ok, CallBack(t, callback), m.Reaction(n - 1));
    }
  }

  lemma ReceivePreserves(inv: State -> bool, ok: Action -> bool, s: State, m: Incoming)
    requires Preserves(inv, ok) && AdmitsCalls(ok)
    requires ok(Advising(m)) && (m.data.None? ==> ok(Replying(m)))
    requires inv(s)
    ensures inv(Receive(s, m))
  {
    var t := HandleAdvice(s, m);
    assert inv(Act(s, Advising(m)));
    if m.data.Some? {
      if m.channel.Some? {
        var regs := Matching(t.subs, m.channel.value);
        DeliverPreserves(inv, ok, t, regs, m, |regs|);
      }
    } else {
      assert inv(Act(t, Replying(m)));
    }
  }

  lemma {:induction false} ReceiveAllPreserves(inv: State -> bool, ok: Action -> bool, s: State,
                                               ms: seq<Incoming>)
    requires Preserves(inv, ok) && AdmitsCalls(ok)
    requires forall m :: m in ms ==> ok(Advising(m)) && (m.data.None? ==> ok(Replying(m)))
    requires inv(s)
    ensures inv(ReceiveAll(s, ms))
  {
    if ms != [] {
      ReceiveAllPreserves(inv, ok, s, ms[..|ms| - 1]);
      assert ms[|ms| - 1] in ms;
      ReceivePreserves(inv, ok, ReceiveAll(s, ms[..|ms| - 1]), ms[|ms| - 1]);
    }
  }

  lemma StepPreserves(inv: State -> bool, ok: Action -> bool, s: State, e: Event)
    requires Preserves(inv, ok) && AdmitsRequests(ok) && Admits(ok, e)
    requires inv(s)
    ensures inv(Step(s, e))
  {
    match e
    case CallApi(call) => assert inv(Act(s, Calling(call)));
    case ConnectTimeout => assert inv(Act(s, ConnectFiring));
    case FlushTimeout => assert inv(Act(s, FlushFiring));
    case HandshakeTimeout => assert inv(Act(s, HandshakeFiring));
    case MessagesArrive(messages) =>
      ReceiveAllPreserves(inv, ok, s, messages);
      assert inv(Act(ReceiveAll(s, messages), Waking));
    case SendFails(batchId) => assert inv(Act(s, Failing(batchId)));
  }

  /** The principle: what every admitted action preserves holds after every run of admitted events. */
  lemma {:induction false} Everywhere(inv: State -> bool, ok: Action -> bool, s: State, es: seq<Event>)
    requires Preserves(inv, ok) && AdmitsRequests(ok) && AdmitsAll(ok, es)
    requires inv(s)
    ensures inv(Run(s, es))
  {
    if es != [] {
      assert es[|es| - 1] in es;
      Everywhere(inv, ok, s, es[..|es| - 1]);
      StepPreserves(inv, ok, Run(s, es[..|es| - 1]), es[|es| - 1]);
    }
  }

  predicate Anything(a: Action) {
    true
  }

  /** No reply carries an id text that decodes to the id of messages not yet sent. */
  predicate ValidReplies(es: seq<Event>) {
    forall e :: e in es && e.MessagesArrive? ==>
      forall m :: m in e.messages && m.data.None? && m.id.Some? ==> ParseId(m.id.value) != INVALID_ID
  }

  // ---------------------------------------------------------------------------------------------
  // What the transport adds
  // ---------------------------------------------------------------------------------------------

  predicate IsResponse(e: Event) {
    e.MessagesArrive? || e.SendFails?
  }

  /** The transport only responds: messages and send errors come after something has been sent. */
  ghost predicate Timely(s: State, es: seq<Event>) {
    forall n :: 0 <= n < |es| && IsResponse(es[n]) ==> Run(s, es[..n]).hist.sent != []
  }

  lemma TimelyPrefix(s: State, es: seq<Event>)
    requires es != [] && Timely(s, es)
    ensures Timely(s, es[..|es| - 1])
  {
    hide Run;
    var rest := es[..|es| - 1];
    assert forall n :: 0 <= n < |rest| ==> rest[..n] == es[..n] && rest[n] == es[n];
  }

  lemma {:induction false} RunJoins(s: State, es: seq<Event>, more: seq<Event>)
    ensures Run(s, es + more) == Run(Run(s, es), more)
  {
    hide Step;
    if more == [] {
      assert es + more == es;
    } else {
      var rest := more[..|more| - 1];
      RunJoins(s, es, rest);
      assert (es + more)[..|es + more| - 1] == es + rest;
    }
  }

  /** How many requests have been answered or have failed. */
  function Responses(es: seq<Event>): (n: nat)
    ensures n <= |es|
  {
    if es == [] then 0
    else Responses(es[..|es| - 1]) + if IsResponse(es[|es| - 1]) then 1 else 0
  }

  /** The response at place `n`, if there is one, is to a request that has not had one yet. */
  ghost predicate PairedAt(s: State, used: nat, es: seq<Event>, n: nat)
    requires n < |es|
  {
    IsResponse(es[n]) ==> used + Responses(es[..n]) < |Run(s, es[..n]).hist.sent|
  }

  /** After `used` responses, each response of `es` is to a request that has not had one yet. */
  ghost predicate Paired(s: State, used: nat, es: seq<Event>) {
    forall n :: 0 <= n < |es| ==> PairedAt(s, used, es, n)
  }

  lemma PairedIsTimely(s: State, used: nat, es: seq<Event>)
    requires Paired(s, used, es)
    ensures Timely(s, es)
  {
    hide Run, Responses;
    forall n | 0 <= n < |es| && IsResponse(es[n]) ensures Run(s, es[..n]).hist.sent != [] {
      assert PairedAt(s, used, es, n);
    }
  }

  lemma PairedPrefix(s: State, used: nat, es: seq<Event>)
    requires es != [] && Paired(s, used, es)
    ensures Paired(s, used, es[..|es| - 1])
  {
    hide PairedAt;
    var rest := es[..|es| - 1];
    forall n | 0 <= n < |rest| ensures PairedAt(s, used, rest, n) {
      PairedAtPrefix(s, used, rest, es, n);
    }
  }

  lemma {:induction false} ResponsesJoin(es: seq<Event>, more: seq<Event>)
    ensures Responses(es + more) == Responses(es) + Responses(more)
  {
    if more == [] {
      assert es + more == es;
    } else {
      ResponsesJoin(es, more[..|more| - 1]);
      assert (es + more)[..|es + more| - 1] == es + more[..|more| - 1];
    }
  }

  lemma PairedAtPrefix(s: State, used: nat, es: seq<Event>, all: seq<Event>, n: nat)
    requires n < |es| && es <= all
    ensures PairedAt(s, used, es, n) <==> PairedAt(s, used, all, n)
  {
    assert all[..n] == es[..n];
  }

  lemma PairedAtSuffix(s: State, used: nat, es: seq<Event>, more: seq<Event>, k: nat)
    requires k < |more|
    ensures PairedAt(Run(s, es), used + Responses(es), more, k) <==> PairedAt(s, used, es + more, |es| + k)
  {
    hide Run, Responses;
    assert (es + more)[..|es| + k] == es + more[..k];
    RunJoins(s, es, more[..k]);
    ResponsesJoin(es, more[..k]);
  }

  lemma PairedJoins(s: State, used: nat, es: seq<Event>, more: seq<Event>)
    requires Paired(s, used, es) && Paired(Run(s, es), used + Responses(es), more)
    ensures Paired(s, used, es + more)
  {
    hide Run, Responses, PairedAt;
    forall n | 0 <= n < |es + more| ensures PairedAt(s, used, es + more, n) {
      if n < |es| {
        PairedAtPrefix(s, used, es, es + more, n);
      } else {
        PairedAtSuffix(s, used, es, more, n - |es|);
      }
    }
  }
}
