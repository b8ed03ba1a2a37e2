/** Delivery stays possible: what a server can always do to get every queued message out of the client and
    answered. */
module Delivery {
  import opened Bits
  import opened Ids
  import opened Documents
  import opened Engine
  import opened Runs
  import opened Ledger
  import opened Conservation
  import opened Connecting
  import opened Handshaking
  import opened FirstCall
  import opened Findings

  // ---------------------------------------------------------------------------------------------
  // Continuations
  // ---------------------------------------------------------------------------------------------

  /** A continuation that the server can bring about alone after `used` responses: no calls, no send errors,
      valid replies, and no more than one response to each request. */
  ghost predicate Possible(s: State, used: nat, es: seq<Event>) {
    && NoCalls(es) && ValidReplies(es) && Paired(s, used, es)
    && forall e :: e in es ==> !e.SendFails?
  }

  ghost predicate Leads(s: State, used: nat, es: seq<Event>, t: State, now: nat) {
    Possible(s, used, es) && Run(s, es) == t && now == used + Responses(es)
  }

  /** The server can lead from `s` after `used` responses to `t` after `now` of them, without a flush past
      the last entry. */
  ghost predicate Reaches(s: State, used: nat, t: State, now: nat) {
    && t.hist.staleRead == s.hist.staleRead
    && exists es :: Leads(s, used, es, t, now)
  }

  lemma StaysPut(s: State, used: nat)
    ensures Reaches(s, used, s, used)
  {
    assert Leads(s, used, [], s, used);
  }

  lemma TakesTurn(s: State, used: nat, e: Event)
    requires !e.CallApi? && !e.SendFails? && Step(s, e).hist.staleRead == s.hist.staleRead
    requires e.MessagesArrive? ==> used < |s.hist.sent| && ValidReplies([e])
    ensures Reaches(s, used, Step(s, e), used + if e.MessagesArrive? then 1 else 0)
  {
    hide Step;
    var es := [e];
    assert es[..0] == [];
    assert Run(s, es) == Step(Run(s, es[..0]), e);
    assert Responses(es) == Responses(es[..0]) + if IsResponse(e) then 1 else 0;
    assert Leads(s, used, es, Step(s, e), used + if e.MessagesArrive? then 1 else 0);
  }

  lemma GoesOn(s: State, used: nat, t: State, mid: nat, u: State, now: nat)
    requires Reaches(s, used, t, mid) && Reaches(t, mid, u, now)
    ensures Reaches(s, used, u, now)
  {
    hide Leads;
    var es :| Leads(s, used, es, t, mid);
    var more :| Leads(t, mid, more, u, now);
    LeadsOn(s, used, es, t, mid, more, u, now);
  }

  lemma LeadsOn(s: State, used: nat, es: seq<Event>, t: State, mid: nat, more: seq<Event>, u: State, now: nat)
    requires Leads(s, used, es, t, mid) && Leads(t, mid, more, u, now)
    ensures Leads(s, used, es + more, u, now)
  {
    hide Run, Responses, Possible;
    PossibleJoins(s, used, es, more);
    RunJoins(s, es, more);
    ResponsesJoin(es, more);
  }

  lemma PossibleJoins(s: State, used: nat, es: seq<Event>, more: seq<Event>)
    requires Possible(s, used, es) && Possible(Run(s, es), used + Responses(es), more)
    ensures Possible(s, used, es + more)
  {
    hide Run, Responses, Paired, ParseId;
    PairedJoins(s, used, es, more);
    assert forall e :: e in es + more <==> e in es || e in more;
  }

  // ---------------------------------------------------------------------------------------------
  // A server that accepts everything
  // ---------------------------------------------------------------------------------------------

  /** The reply that accepts a message, a handshake included. */
  function Accept(id: Word): Incoming {
    Incoming(Some(AdviceField(Some("retry"), None)), Some(IdText(id)), Some(HANDSHAKE_CHANNEL), None,
             Some("c"), Some(true), [])
  }

  /** Accepts whatever is in flight, in queue order. */
  function AcceptAll(es: seq<Entry>): seq<Incoming> {
    if es == [] then []
    else
      var e := es[|es| - 1];
      AcceptAll(es[..|es| - 1]) + if e.InFlight() then [Accept(e.msgId)] else []
  }

  /** The entries that are not in flight, in order. */
  function Idle(es: seq<Entry>): (idle: seq<Entry>)
    ensures forall e :: e in idle ==> !e.InFlight()
  {
    if es == [] then []
    else
      var e := es[|es| - 1];
      Idle(es[..|es| - 1]) + if e.InFlight() then [] else [e]
  }

  ghost predicate AllIdle(es: seq<Entry>) {
    forall i :: 0 <= i < |es| ==> !es[i].InFlight()
  }

  lemma {:induction false} AllInFlightLeaveNothing(es: seq<Entry>)
    requires forall i :: 0 <= i < |es| ==> es[i].InFlight()
    ensures Idle(es) == []
  {
    if es != [] {
      AllInFlightLeaveNothing(es[..|es| - 1]);
    }
  }

  /** What accepting messages leaves alone. */
  ghost predicate Accepts(s: State, t: State) {
    && t.hist == s.hist.(dispatched := t.hist.dispatched) && t.flushTimer == s.flushTimer
    && (s.phase == Connected ==> t.phase == Connected)
    && (s.handshakeIndex == -1 ==> t.handshakeIndex == -1)
  }

  lemma AcceptAdvised(s: State, id: Word)
    ensures HandleAdvice(s, Accept(id)) == s.(reconnect := ReconnectRetry)
  {
    hide IdText;
  }

  lemma AcceptOne(s: State, i: nat)
    requires i < |s.outbox| && s.outbox[i].InFlight()
    requires forall j :: 0 <= j < i ==> s.outbox[j].msgId != s.outbox[i].msgId
    ensures var t := Receive(s, Accept(s.outbox[i].msgId));
      && t.outbox == RemoveAt(s.outbox, i) && Accepts(s, t)
      && (s.outbox[i].handler == RecvHandshake ==> t.phase == Connected && t.handshakeIndex == -1)
  {
    hide HandleAdvice, IdText, ParseId, Find;
    AcceptAdvised(s, s.outbox[i].msgId);
    Finds(s.outbox, i);
  }

  lemma AcceptNext(t: State, before: seq<Entry>, e: Entry, after: seq<Entry>)
    requires t.outbox == before + [e] + after && AllIdle(before) && e.InFlight()
    ensures var u := Receive(t, Accept(e.msgId)); u.outbox == before + after && Accepts(t, u)
  {
    hide Receive, Accept;
    var i := |before|;
    assert forall j :: 0 <= j < i ==> t.outbox[j] == before[j];
    AcceptOne(t, i);
    assert RemoveAt(t.outbox, i) == before + after;
  }

  lemma IdleOneMore(es: seq<Entry>, e: Entry)
    ensures Idle(es + [e]) == Idle(es) + if e.InFlight() then [] else [e]
    ensures AcceptAll(es + [e]) == AcceptAll(es) + if e.InFlight() then [Accept(e.msgId)] else []
    ensures AllIdle(Idle(es))
  {
    hide Accept;
    assert (es + [e])[..|es|] == es;
    assert forall i :: 0 <= i < |Idle(es)| ==> Idle(es)[i] in Idle(es);
  }

  lemma AcceptsOn(s: State, t: State, u: State)
    requires Accepts(s, t) && Accepts(t, u)
    ensures Accepts(s, u)
  {
  }

  /** `t` is `s` after everything in flight in the first part of its outbox has been accepted. */
  ghost predicate Drained(s: State, t: State, es: seq<Entry>, after: seq<Entry>) {
    t == ReceiveAll(s, AcceptAll(es)) && t.outbox == Idle(es) + after && Accepts(s, t)
  }

  lemma DrainsNext(s: State, t: State, es: seq<Entry>, e: Entry, after: seq<Entry>)
    requires Drained(s, t, es, [e] + after)
    ensures Drained(s, ReceiveAll(s, AcceptAll(es + [e])), es + [e], after)
  {
    hide Receive, ReceiveAll, Accept, Idle, AcceptAll, AllIdle, Accepts;
    IdleOneMore(es, e);
    assert Idle(es) + ([e] + after) == Idle(es) + [e] + after;
    if e.InFlight() {
      AcceptNext(t, Idle(es), e, after);
      AllButLast(s, AcceptAll(es), Accept(e.msgId));
      AcceptsOn(s, t, Receive(t, Accept(e.msgId)));
      assert Idle(es) + [] == Idle(es);
    } else {
      assert AcceptAll(es) + [] == AcceptAll(es);
    }
  }

  /** Accepting in queue order always answers the first entry in flight, so the ids need not even be
      distinct. */
  lemma {:induction false} Drains(s: State, n: nat)
    requires n <= |s.outbox|
    ensures var t := ReceiveAll(s, AcceptAll(s.outbox[..n]));
      t.outbox == Idle(s.outbox[..n]) + s.outbox[n..] && Accepts(s, t)
  {
    hide ReceiveAll, Idle, AcceptAll, Accepts;
    if n == 0 {
      DrainsNothing(s);
    } else {
      var es, e := s.outbox[..n - 1], s.outbox[n - 1];
      Drains(s, n - 1);
      assert s.outbox[..n] == es + [e] && s.outbox[n - 1..] == [e] + s.outbox[n..];
      DrainsNext(s, ReceiveAll(s, AcceptAll(es)), es, e, s.outbox[n..]);
    }
  }

  lemma DrainsNothing(s: State)
    ensures var t := ReceiveAll(s, AcceptAll(s.outbox[..0]));
      t.outbox == Idle(s.outbox[..0]) + s.outbox[0..] && Accepts(s, t)
  {
  }

  lemma AllButLast(s: State, ms: seq<Incoming>, m: Incoming)
    ensures ReceiveAll(s, ms + [m]) == Receive(ReceiveAll(s, ms), m)
  {
    assert (ms + [m])[..|ms|] == ms;
  }

  lemma {:induction false} AcceptAllIsValid(es: seq<Entry>)
    ensures forall m :: m in AcceptAll(es) ==>
      m.data.None? && m.id.Some? && ParseId(m.id.value) != INVALID_ID
  {
    hide IdText, ParseId;
    if es != [] {
      AcceptAllIsValid(es[..|es| - 1]);
      IdTextRoundTrip(es[|es| - 1].msgId);
    }
  }

  // ---------------------------------------------------------------------------------------------
  // The turns
  // ---------------------------------------------------------------------------------------------

  /** Some request has not had a response yet. */
  predicate Owed(s: State, used: nat) {
    used < |s.hist.sent|
  }

  const RESET := Incoming(Some(AdviceField(Some("handshake"), None)), None, None, None, None, None, [])

  lemma ResetAdvises(s: State)
    ensures Receive(s, RESET) == s.(reconnect := ReconnectHandshake, phase := Unconnected, connectTimer := true)
  {
  }

  /** Everything in flight is accepted, and a new handshake is asked for. */
  lemma ResetTurn(s: State, used: nat) returns (t: State)
    requires Owed(s, used)
    ensures Reaches(s, used, t, used + 1) && |t.hist.sent| == |s.hist.sent|
    ensures t.outbox == Idle(s.outbox)
    ensures t.phase == Unconnected && t.reconnect == ReconnectHandshake && t.connectTimer
  {
    hide Receive, ReceiveAll, AcceptAll, Reaches, Idle;
    var ms := AcceptAll(s.outbox) + [RESET];
    var e := MessagesArrive(ms);
    t := Step(s, e);
    assert s.outbox[..|s.outbox|] == s.outbox;
    Drains(s, |s.outbox|);
    AllButLast(s, AcceptAll(s.outbox), RESET);
    ResetAdvises(ReceiveAll(s, AcceptAll(s.outbox)));
    AcceptAllIsValid(s.outbox);
    assert Idle(s.outbox) + [] == Idle(s.outbox);
    TakesTurn(s, used, e);
  }

  lemma ConnectTurn(s: State, used: nat) returns (t: State)
    requires AllIdle(s.outbox)
    requires s.phase == Unconnected && s.reconnect == ReconnectHandshake && s.connectTimer
    ensures Reaches(s, used, t, used) && |t.hist.sent| == |s.hist.sent|
    ensures AllIdle(t.outbox) && t.flushTimer
    ensures 0 <= t.handshakeIndex < |t.outbox| && t.outbox[t.handshakeIndex].handler == RecvHandshake
  {
    hide Reaches;
    t := Step(s, ConnectTimeout);
    TakesTurn(s, used, ConnectTimeout);
  }

  /** Only the handshake at the index is in flight. */
  ghost predicate Shaking(s: State) {
    && 0 <= s.handshakeIndex < |s.outbox| && s.outbox[s.handshakeIndex].handler == RecvHandshake
    && forall i :: 0 <= i < |s.outbox| ==> (s.outbox[i].InFlight() <==> i == s.handshakeIndex)
  }

  /** The handshake at the index is sent, alone. */
  lemma HandshakeTurn(s: State, used: nat) returns (t: State)
    requires AllIdle(s.outbox) && s.flushTimer
    requires 0 <= s.handshakeIndex < |s.outbox| && s.outbox[s.handshakeIndex].handler == RecvHandshake
    ensures Reaches(s, used, t, used) && |t.hist.sent| == |s.hist.sent| + 1
    ensures Shaking(t)
  {
    hide Reaches;
    t := Step(s, FlushTimeout);
    FlushOneFrame(s.(flushTimer := false), s.handshakeIndex);
    TakesTurn(s, used, FlushTimeout);
  }

  /** The handshake is accepted. */
  lemma SessionTurn(s: State, used: nat) returns (t: State)
    requires Owed(s, used) && Shaking(s)
    ensures Reaches(s, used, t, used + 1) && |t.hist.sent| == |s.hist.sent|
    ensures t.phase == Connected && t.handshakeIndex == -1
    ensures AllIdle(t.outbox) && (t.outbox != [] ==> t.flushTimer)
  {
    hide Receive, ReceiveAll, IdText, ParseId, Reaches;
    var m := Accept(s.outbox[s.handshakeIndex].msgId);
    var e := MessagesArrive([m]);
    t := Step(s, e);
    OneMessage(s, m);
    AcceptOne(s, s.handshakeIndex);
    IdTextRoundTrip(s.outbox[s.handshakeIndex].msgId);
    TakesTurn(s, used, e);
  }

  /** Everything else is sent. */
  lemma FlushTurn(s: State, used: nat) returns (t: State)
    requires s.handshakeIndex == -1 && s.phase == Connected && s.flushTimer
    ensures Reaches(s, used, t, used) && |t.hist.sent| == |s.hist.sent| + 1
    ensures t.phase == Connected && forall i :: 0 <= i < |t.outbox| ==> t.outbox[i].InFlight()
  {
    hide Reaches;
    t := Step(s, FlushTimeout);
    var u := s.(flushTimer := false);
    FlushAllFrame(u);
    forall i | 0 <= i < |t.outbox| ensures t.outbox[i].InFlight() {
      assert t.outbox[i] == StampedAt(u, i);
    }
    TakesTurn(s, used, FlushTimeout);
  }

  /** Everything in flight is accepted. */
  lemma AcceptTurn(s: State, used: nat) returns (t: State)
    requires Owed(s, used) && s.phase == Connected
    ensures Reaches(s, used, t, used + 1)
    ensures t.outbox == Idle(s.outbox) && t.phase == Connected
  {
    hide Receive, ReceiveAll, AcceptAll, Reaches, Idle;
    var e := MessagesArrive(AcceptAll(s.outbox));
    t := Step(s, e);
    assert s.outbox[..|s.outbox|] == s.outbox;
    Drains(s, |s.outbox|);
    AcceptAllIsValid(s.outbox);
    assert Idle(s.outbox) + [] == Idle(s.outbox);
    TakesTurn(s, used, e);
  }

  /** To a session, with nothing in flight. */
  lemma Reconnects(s: State, used: nat) returns (t: State)
    requires Owed(s, used)
    ensures Reaches(s, used, t, used + 2) && |t.hist.sent| == |s.hist.sent| + 1
    ensures t.phase == Connected && t.handshakeIndex == -1
    ensures t.outbox != [] ==> t.flushTimer
  {
    hide Reaches;
    var a := ResetTurn(s, used);
    IdleIsIdle(s.outbox);
    var b := ConnectTurn(a, used + 1);
    GoesOn(s, used, a, used + 1, b, used + 1);
    var c := HandshakeTurn(b, used + 1);
    GoesOn(s, used, b, used + 1, c, used + 1);
    t := SessionTurn(c, used + 1);
    GoesOn(s, used, c, used + 1, t, used + 2);
  }

  lemma IdleIsIdle(es: seq<Entry>)
    ensures AllIdle(Idle(es))
  {
    assert forall i :: 0 <= i < |Idle(es)| ==> Idle(es)[i] in Idle(es);
  }

  /** With one request to respond to, the server can empty any outbox. */
  lemma Empties(s: State, used: nat) returns (t: State, now: nat)
    requires Owed(s, used)
    ensures Reaches(s, used, t, now) && t.outbox == [] && t.phase == Connected
  {
    hide Reaches, Idle;
    t := Reconnects(s, used);
    now := used + 2;
    if t.outbox != [] {
      var a := FlushTurn(t, now);
      GoesOn(s, used, t, now, a, now);
      t := AcceptTurn(a, now);
      AllInFlightLeaveNothing(a.outbox);
      GoesOn(s, used, a, now, t, now + 1);
      now := now + 1;
    }
  }

  // ---------------------------------------------------------------------------------------------
  // Every run
  // ---------------------------------------------------------------------------------------------

  /** If no request is unanswered, the pending flush makes one. */
  lemma AsksFirst(s: State, used: nat) returns (t: State)
    requires used <= |s.hist.sent|
    requires Owed(s, used) || (s.flushTimer && (s.handshakeIndex == -1 || 0 <= s.handshakeIndex < |s.outbox|))
    ensures Reaches(s, used, t, used) && Owed(t, used)
  {
    hide Reaches;
    if Owed(s, used) {
      t := s;
      StaysPut(s, used);
    } else {
      hide FlushTimerFires;
      t := Step(s, FlushTimeout);
      FlushSends(s);
      TakesTurn(s, used, FlushTimeout);
    }
  }

  lemma {:induction false} NothingRemains(n: nat, ds: seq<Dispatched>, k: nat)
    requires Remaining(n, ds) == [] && k < n
    ensures WasDispatched(ds, k)
  {
    if k < n - 1 {
      NothingRemains(n - 1, ds, k);
    }
  }

  lemma {:induction false} PushedGrows(s: State, es: seq<Event>)
    ensures s.hist.pushed <= Run(s, es).hist.pushed
  {
    var inv := (t: State) => s.hist.pushed <= t.hist.pushed;
    forall t, a | inv(t) ensures inv(Act(t, a)) {
      ActKeepsPushed(t, a);
    }
    Everywhere(inv, Anything, s, es);
  }

  /** Everything queued has been answered. */
  ghost predicate AllAnswered(t: State) {
    && t.outbox == []
    && forall k :: 0 <= k < |t.hist.pushed| ==> WasDispatched(t.hist.dispatched, k)
  }

  lemma EmptyMeansAnswered(t: State)
    requires Conserved(t) && t.outbox == []
    ensures AllAnswered(t)
  {
    forall k | 0 <= k < |t.hist.pushed| ensures WasDispatched(t.hist.dispatched, k) {
      NothingRemains(|t.hist.pushed|, t.hist.dispatched, k);
    }
  }

  /** The next flush, if there is one, is not past the last entry, and none has been. */
  predicate IndexInRange(s: State) {
    !s.hist.staleRead && (s.handshakeIndex == -1 || 0 <= s.handshakeIndex < |s.outbox|)
  }

  /** After every run in which the transport gives each request at most one response, if one is still
      unanswered or the handshake index is not stale: the server alone can bring the client to a state in
      which everything ever queued has been answered, without the client flushing past its last entry on the
      way. It takes no call, no send error and no distinct ids, and works from stuck states and under advice
      `none` alike. */
  lemma {:induction false} DeliveryStaysPossible(intervalMs: int, es: seq<Event>)
    requires ValidReplies(es) && Paired(Init(intervalMs), 0, es)
    requires var s := Run(Init(intervalMs), es);
      s.outbox != [] ==> Owed(s, Responses(es)) || IndexInRange(s)
    ensures var s := Run(Init(intervalMs), es);
      exists more :: Possible(s, Responses(es), more) &&
        var t := Run(s, more);
        && AllAnswered(t) && s.hist.pushed <= t.hist.pushed
        && t.hist.staleRead == s.hist.staleRead
        && (s.outbox != [] ==> t.phase == Connected)
  {
    var s, used := Run(Init(intervalMs), es), Responses(es);
    var t, now := s, used;
    if s.outbox == [] {
      StaysPut(s, used);
    } else {
      ClientIsNeverSilent(intervalMs, es);
      var u := AsksFirst(s, used);
      t, now := Empties(u, used);
      GoesOn(s, used, u, used, t, now);
    }
    hide Run, Possible;
    var more :| Leads(s, used, more, t, now);
    RunJoins(Init(intervalMs), es, more);
    MessagesAreConserved(intervalMs, es + more);
    EmptyMeansAnswered(t);
    PushedGrows(s, more);
  }

  /** That is so in every such run in which no handshake was queued with another kind of message in
      flight. */
  lemma {:induction false} UnlessOverlapped(intervalMs: int, es: seq<Event>)
    requires ValidReplies(es)
    ensures var s := Run(Init(intervalMs), es);
      !s.hist.overlapped ==> IndexInRange(s)
  {
    HandshakeIndexIsSound(intervalMs, es);
  }
}
