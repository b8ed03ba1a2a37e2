/** What each event does to the client, one row per event, without reference to how the program goes about it.
    `Requests` adds what is queued, `Calls` what is registered and called back. */
module Effects {
  import opened Ids
  import opened Documents
  import opened Engine
  import opened Runs
  import opened Ledger
  import opened Requests

  // ---------------------------------------------------------------------------------------------
  // Calls and timers
  // ---------------------------------------------------------------------------------------------

  /** The entries of messages that have just been pushed. */
  function Waiters(pushed: seq<Pushed>, from: nat): (es: seq<Entry>)
    requires from <= |pushed|
    ensures |es| == |pushed| - from
  {
    seq(|pushed| - from, i requires 0 <= i < |pushed| - from =>
      Entry(pushed[from + i].doc, INVALID_ID, INVALID_ID, pushed[from + i].handler, from + i, 0, 0))
  }

  predicate WillShake(s: State) {
    s.phase == Unconnected && s.reconnect != ReconnectNone
  }

  predicate WillConnect(s: State) {
    s.reconnect != ReconnectNone && !s.connectInFlight
  }

  /** From `s` to `t` messages have been queued: they wait behind the others, the handshake at the index, and
      nothing has been sent, answered or called back. */
  ghost predicate Queueing(s: State, t: State, shakes: bool, connects: bool) {
    && s.hist.pushed <= t.hist.pushed
    && t == s.(phase := if shakes then Connecting else s.phase,
               handshakeIndex := if shakes then |s.outbox| else s.handshakeIndex,
               connectInFlight := s.connectInFlight || connects,
               flushTimer := t.flushTimer, subs := t.subs,
               outbox := s.outbox + Waiters(t.hist.pushed, |s.hist.pushed|),
               hist := s.hist.(pushed := t.hist.pushed, registered := t.hist.registered,
                               overlapped := s.hist.overlapped || (shakes && OtherInFlight(s.outbox)),
                               overrun := t.hist.overrun, parked := s.hist.parked && !connects))
  }

  lemma WaitersOneMore(pushed: seq<Pushed>, from: nat, p: Pushed)
    requires from <= |pushed|
    ensures Waiters(pushed + [p], from) == Waiters(pushed, from) + [NewEntry(p.doc, p.handler, |pushed|)]
  {
  }

  lemma NoWaiters(pushed: seq<Pushed>)
    ensures Waiters(pushed, |pushed|) == []
  {
  }

  /** One message more. */
  lemma QueueingOneMore(s: State, t: State, u: State, shakes: bool, connects: bool, connect: bool, p: Pushed)
    requires Queueing(s, t, shakes, connects)
    requires u == t.(connectInFlight := t.connectInFlight || connect, flushTimer := u.flushTimer,
                     outbox := t.outbox + [NewEntry(p.doc, p.handler, |t.hist.pushed|)],
                     hist := t.hist.(pushed := t.hist.pushed + [p], parked := t.hist.parked && !connect))
    ensures Queueing(s, u, shakes, connects || connect)
  {
    hide Waiters;
    WaitersOneMore(t.hist.pushed, |s.hist.pushed|, p);
  }

  lemma IssueHandshakeQueueing(s: State)
    ensures var t := IssueHandshake(s);
      Queueing(s, t, WillShake(s), false) && t.flushTimer == (s.flushTimer || WillShake(s))
  {
    hide Waiters, OtherInFlight;
    NoWaiters(s.hist.pushed);
    assert s.outbox + [] == s.outbox;
    if WillShake(s) {
      var p := Pushed(HandshakeDoc(), RecvHandshake);
      WaitersOneMore(s.hist.pushed, |s.hist.pushed|, p);
      assert Waiters(s.hist.pushed + [p], |s.hist.pushed|) == [NewEntry(p.doc, p.handler, |s.hist.pushed|)];
    }
  }

  lemma IssueConnectQueueing(s: State)
    ensures var t := IssueConnect(s);
      && Queueing(s, t, WillShake(s), WillConnect(s))
      && t.flushTimer == (s.flushTimer || WillShake(s) || WillConnect(s))
      && t.hist.registered == s.hist.registered && t.subs == s.subs
  {
    IssueHandshakeQueueing(s);
    IssueHandshakeSubs(s);
    var t := IssueHandshake(s);
    assert t.reconnect == s.reconnect && t.connectInFlight == s.connectInFlight;
    hide Waiters, IssueHandshake, Queueing, WillShake;
    if WillConnect(s) {
      QueueingOneMore(s, t, IssueConnect(s), WillShake(s), false, true, Pushed(ConnectDoc(), RecvConnect));
    }
  }

  lemma IssueHandshakeSubs(s: State)
    ensures IssueHandshake(s).subs == s.subs && IssueHandshake(s).hist.registered == s.hist.registered
  {
  }

  lemma NotedQueueing(s: State, u: State, t: State, shakes: bool, connects: bool)
    requires u == s.(subs := u.subs, hist := s.hist.(registered := u.hist.registered, overrun := u.hist.overrun))
    requires Queueing(u, t, shakes, connects)
    ensures Queueing(s, t, shakes, connects)
  {
    hide Waiters;
  }

  /** An API call. */
  lemma CallEffects(s: State, call: ApiCall)
    ensures var t := DoCall(s, call); Queueing(s, t, WillShake(s), WillConnect(s)) && t.flushTimer
  {
    hide Queueing, IssueConnect, Noted, DocOf, HandlerOf;
    var u := Noted(s, call);
    NotedSame(s, call);
    IssueConnectQueueing(u);
    var v := IssueConnect(u);
    NotedQueueing(s, u, v, WillShake(s), WillConnect(s));
    QueueingOneMore(s, v, DoCall(s, call), WillShake(s), WillConnect(s), false, Pushed(DocOf(call), HandlerOf(call)));
  }

  /** The connect timer and the handshake timer. */
  lemma TimerEffects(s: State)
    ensures var t := ConnectTimerFires(s);
      && Queueing(s.(connectTimer := false,
                     hist := s.hist.(parked := s.hist.parked || s.reconnect == ReconnectNone)),
                  t, WillShake(s), WillConnect(s))
      && t.flushTimer == (s.flushTimer || WillShake(s) || WillConnect(s))
    ensures var t := HandshakeTimerFires(s);
      && Queueing(s.(handshakeTimer := false), t, WillShake(s), false)
      && t.flushTimer == (s.flushTimer || WillShake(s))
  {
    hide Waiters, IssueConnect, IssueHandshake;
    IssueConnectQueueing(ConnectTimerDue(s));
    IssueHandshakeQueueing(s.(handshakeTimer := false));
  }

  // ---------------------------------------------------------------------------------------------
  // Messages
  // ---------------------------------------------------------------------------------------------

  /** The reply to a handshake that has succeeded. */
  predicate Succeeds(m: Incoming) {
    m.successful == Some(true) && m.channel == Some(HANDSHAKE_CHANNEL) && m.clientId.Some?
  }

  /** The reply says whether the handshake succeeded, and it has not. */
  predicate Refuses(m: Incoming) {
    m.successful.Some? && !Succeeds(m)
  }

  function AnsweredAt(s: State, m: Incoming): (i: int)
    ensures -1 <= i < |s.outbox|
  {
    if m.id.None? then -1 else Find(s.outbox, ParseId(m.id.value))
  }

  predicate Answers(s: State, m: Incoming, h: Handler) {
    AnsweredAt(s, m) >= 0 && s.outbox[AnsweredAt(s, m)].handler == h
  }

  /** A message without data: a session is reset by advice to handshake, then settled by the reply to a
      handshake that says whether it succeeded; a refusal arms the handshake timer; the reply to a connect,
      or advice to handshake, arms the connect timer; the entry answered is removed. */
  lemma MessageEffects(s: State, m: Incoming)
    requires m.data.None?
    ensures var t := Receive(s, m);
      var i := AnsweredAt(s, m);
      var shaken, polled := Answers(s, m, RecvHandshake), Answers(s, m, RecvConnect);
      var reset := t.reconnect == ReconnectHandshake;
      t == s.(reconnect := t.reconnect, intervalMs := t.intervalMs,
              phase := if shaken && Succeeds(m) then Connected
                       else if shaken && Refuses(m) then Unconnected
                       else if reset then Unconnected else s.phase,
              clientId := if shaken && Succeeds(m) then m.clientId else s.clientId,
              handshakeIndex := if shaken then -1 else s.handshakeIndex,
              handshakeTimer := s.handshakeTimer || (shaken && Refuses(m)),
              connectTimer := s.connectTimer || reset || polled,
              connectInFlight := s.connectInFlight && !polled,
              outbox := if i >= 0 then s.outbox[..i] + s.outbox[i + 1..] else s.outbox,
              hist := s.hist.(dispatched := s.hist.dispatched +
                        if i >= 0 then [Dispatched(s.outbox[i].serial, s.outbox[i].handler)] else []))
  {
    AnswersSame(s, HandleAdvice(s, m), m);
    hide HandleAdvice, Reply, AnsweredAt, Answers, Succeeds, Refuses;
    AdviceEffects(s, m);
    ReplyEffects(HandleAdvice(s, m), m);
  }

  lemma AnswersSame(s: State, t: State, m: Incoming)
    requires t == HandleAdvice(s, m)
    ensures t.outbox == s.outbox && AnsweredAt(s, m) == AnsweredAt(t, m)
    ensures forall h :: Answers(s, m, h) == Answers(t, m, h)
  {
    hide ReconnectOf, Find, ParseId;
  }

  lemma AdviceEffects(s: State, m: Incoming)
    ensures var t := HandleAdvice(s, m);
      var reset := t.reconnect == ReconnectHandshake;
      t == s.(reconnect := t.reconnect, intervalMs := t.intervalMs,
              phase := if reset then Unconnected else s.phase, connectTimer := s.connectTimer || reset)
  {
    hide ReconnectOf;
  }

  lemma HandlerEffects(s: State, h: Handler, m: Incoming)
    ensures var shaken, polled := h == RecvHandshake, h == RecvConnect;
      Handle(s, h, m) ==
        s.(phase := if shaken && Succeeds(m) then Connected
                    else if shaken && Refuses(m) then Unconnected else s.phase,
           clientId := if shaken && Succeeds(m) then m.clientId else s.clientId,
           handshakeIndex := if shaken then -1 else s.handshakeIndex,
           handshakeTimer := s.handshakeTimer || (shaken && Refuses(m)),
           connectTimer := s.connectTimer || polled,
           connectInFlight := s.connectInFlight && !polled)
  {
  }

  lemma ReplyEffects(s: State, m: Incoming)
    ensures var t := Reply(s, m);
      var i := AnsweredAt(s, m);
      var shaken, polled := Answers(s, m, RecvHandshake), Answers(s, m, RecvConnect);
      t == s.(phase := if shaken && Succeeds(m) then Connected
                       else if shaken && Refuses(m) then Unconnected else s.phase,
              clientId := if shaken && Succeeds(m) then m.clientId else s.clientId,
              handshakeIndex := if shaken then -1 else s.handshakeIndex,
              handshakeTimer := s.handshakeTimer || (shaken && Refuses(m)),
              connectTimer := s.connectTimer || polled,
              connectInFlight := s.connectInFlight && !polled,
              outbox := if i >= 0 then s.outbox[..i] + s.outbox[i + 1..] else s.outbox,
              hist := s.hist.(dispatched := s.hist.dispatched +
                        if i >= 0 then [Dispatched(s.outbox[i].serial, s.outbox[i].handler)] else []))
  {
    hide Find, ParseId, Handle, Succeeds, Refuses;
    if AnsweredAt(s, m) >= 0 {
      HandlerEffects(s, s.outbox[AnsweredAt(s, m)].handler, m);
    } else {
      assert s.hist.dispatched + [] == s.hist.dispatched;
    }
  }

  /** What an event leaves alone, whatever its callbacks call. */
  ghost predicate EventFrame(s: State, t: State) {
    && t.clientId == s.clientId && t.handshakeTimer == s.handshakeTimer
    && t.msgTicks == s.msgTicks && t.batchTicks == s.batchTicks
    && t.reconnect == s.reconnect && t.intervalMs == s.intervalMs && t.connectTimer == s.connectTimer
    && s.outbox <= t.outbox && t.hist.sent == s.hist.sent && t.hist.dispatched == s.hist.dispatched
    && t.hist.staleRead == s.hist.staleRead
  }

  lemma CallEventFrame(s: State, call: ApiCall)
    ensures EventFrame(s, DoCall(s, call))
  {
    hide DoCall, Waiters;
    CallEffects(s, call);
  }

  /** An event answers nothing, sends nothing and leaves what was queued in place; but for advice, it acts
      through the calls made in its callbacks only. */
  lemma EventEffects(s: State, m: Incoming)
    requires m.data.Some?
    ensures EventFrame(HandleAdvice(s, m), Receive(s, m))
    ensures m.channel.None? ==> Receive(s, m) == HandleAdvice(s, m)
  {
    var u := HandleAdvice(s, m);
    var inv := (t: State) => EventFrame(u, t);
    var ok := (a: Action) => a.Calling? || a.CallingBack?;
    forall t, a | inv(t) && ok(a) ensures inv(Act(t, a)) {
      if a.Calling? {
        CallEventFrame(t, a.call);
      }
    }
    if m.channel.Some? {
      var regs := Matching(u.subs, m.channel.value);
      DeliverPreserves(inv, ok, u, regs, m, |regs|);
    }
  }

  lemma {:induction false} RepliesKeepFlushTimer(s: State, ms: seq<Incoming>)
    requires forall m :: m in ms ==> m.data.None?
    ensures ReceiveAll(s, ms).flushTimer == s.flushTimer
  {
    hide Receive;
    if ms != [] {
      assert ms[|ms| - 1] in ms;
      RepliesKeepFlushTimer(s, ms[..|ms| - 1]);
      MessageEffects(ReceiveAll(s, ms[..|ms| - 1]), ms[|ms| - 1]);
    }
  }

  /** After a batch of messages without data a flush is pending exactly if one was before or something is
      left in the outbox. */
  lemma BatchWakesExactly(s: State, ms: seq<Incoming>)
    requires forall m :: m in ms ==> m.data.None?
    ensures var t := BatchRecv(s, ms);
      && t == ReceiveAll(s, ms).(flushTimer := t.flushTimer)
      && (t.flushTimer <==> s.flushTimer || t.outbox != [])
  {
    RepliesKeepFlushTimer(s, ms);
  }

  // ---------------------------------------------------------------------------------------------
  // Flushes
  // ---------------------------------------------------------------------------------------------

  /** A message as it goes out from `s` with the `k`-th next id. */
  ghost predicate SentWith(s: State, doc: Doc, k: nat) {
    && CarriesId(doc, IdAt(s.msgTicks + k))
    && (s.clientId.Some? ==> "clientId" in doc && doc["clientId"] == Text(s.clientId.value))
  }

  lemma {:induction false} ItemsAreNumbered(s: State, n: nat)
    requires n <= |s.outbox|
    ensures var items := ItemsUpTo(s, n);
      |items| == Unsent(s.outbox[..n]) && forall k :: 0 <= k < |items| ==> SentWith(s, items[k].doc, k)
  {
    hide SentWith, Stamp;
    if n > 0 {
      ItemsAreNumbered(s, n - 1);
      assert s.outbox[..n][..n - 1] == s.outbox[..n - 1];
      StampedSentWith(s, s.outbox[n - 1], Unsent(s.outbox[..n - 1]));
    }
  }

  lemma StampedSentWith(s: State, e: Entry, k: nat)
    ensures SentWith(s, Stamp(e, s.msgTicks + k, s.batchTicks, s.clientId).doc, k)
  {
    LabellingKeepsTheRest(e.doc, IdAt(s.msgTicks + k), s.clientId);
  }

  /** A flush sends one text: nothing, if the outbox is empty or the gate is closed behind a handshake in
      flight; otherwise a batch under the next batch id, its messages with consecutive next message ids and
      the client id, if one is known. */
  lemma FlushEffects(s: State)
    requires s.handshakeIndex == -1 || 0 <= s.handshakeIndex < |s.outbox|
    ensures var t := FlushTimerFires(s);
      && !t.flushTimer && |t.hist.sent| == |s.hist.sent| + 1 && s.hist.sent <= t.hist.sent
      && var sent := t.hist.sent[|s.hist.sent|];
      && (sent.Blank? <==>
            if s.handshakeIndex == -1 then s.outbox == [] else s.outbox[s.handshakeIndex].InFlight())
      && if sent.Blank? then t == s.(flushTimer := false, hist := t.hist)
         else
           && sent.batchTick == s.batchTicks && t.batchTicks == s.batchTicks + 1
           && t.msgTicks == s.msgTicks + |sent.items|
           && forall k :: 0 <= k < |sent.items| ==> SentWith(s, sent.items[k].doc, k)
  {
    hide ItemsUpTo, Stamped, SentWith;
    var u := s.(flushTimer := false);
    assert s.outbox[..|s.outbox|] == s.outbox;
    if s.handshakeIndex == -1 {
      ItemsAreNumbered(u, |u.outbox|);
      SameNumbers(s, ItemsUpTo(u, |u.outbox|));
    } else {
      OneIsNumbered(s, s.handshakeIndex);
    }
  }

  lemma SameNumbers(s: State, items: seq<SentItem>)
    requires forall k :: 0 <= k < |items| ==> SentWith(s.(flushTimer := false), items[k].doc, k)
    ensures forall k :: 0 <= k < |items| ==> SentWith(s, items[k].doc, k)
  {
  }

  lemma OneIsNumbered(s: State, i: nat)
    requires i < |s.outbox|
    ensures SentWith(s, StampedOne(s.(flushTimer := false), i).doc, 0)
  {
    LabellingKeepsTheRest(s.outbox[i].doc, IdAt(s.msgTicks), s.clientId);
  }

  // ---------------------------------------------------------------------------------------------
  // Advice, over runs
  // ---------------------------------------------------------------------------------------------

  /** All messages that arrive in a run, in order. */
  function Messages(es: seq<Event>): seq<Incoming> {
    if es == [] then []
    else
      var e := es[|es| - 1];
      Messages(es[..|es| - 1]) + if e.MessagesArrive? then e.messages else []
  }

  /** The last reconnect advice among some messages that the protocol knows, or `retry`. */
  function LastReconnect(ms: seq<Incoming>): string {
    if ms == [] then "retry"
    else
      var m := ms[|ms| - 1];
      if m.advice.Some? && m.advice.value.reconnect.Some?
         && m.advice.value.reconnect.value in {"handshake", "none", "retry"}
      then m.advice.value.reconnect.value else LastReconnect(ms[..|ms| - 1])
  }

  /** The last interval advised, or the one the client was made with. */
  function LastInterval(ms: seq<Incoming>, made: int): int {
    if ms == [] then made
    else
      var m := ms[|ms| - 1];
      if m.advice.Some? && m.advice.value.interval.Some? then m.advice.value.interval.value
      else LastInterval(ms[..|ms| - 1], made)
  }

  function NameOf(r: Reconnect): string {
    match r
    case ReconnectHandshake => "handshake"
    case ReconnectNone => "none"
    case ReconnectRetry => "retry"
  }

  lemma AdviceOnly(s: State, m: Incoming)
    ensures var t, u := Receive(s, m), HandleAdvice(s, m);
      t.reconnect == u.reconnect && t.intervalMs == u.intervalMs
  {
    hide HandleAdvice, Find;
    if m.data.Some? {
      EventEffects(s, m);
    } else {
      ReplyEffects(HandleAdvice(s, m), m);
    }
  }

  /** `s` follows the advice of `ms`. */
  ghost predicate Follows(s: State, ms: seq<Incoming>, made: int) {
    NameOf(s.reconnect) == LastReconnect(ms) && s.intervalMs == LastInterval(ms, made)
  }

  lemma FollowsOneMore(s: State, ms: seq<Incoming>, m: Incoming, made: int)
    requires Follows(s, ms, made)
    ensures Follows(Receive(s, m), ms + [m], made)
  {
    hide Receive;
    AdviceOnly(s, m);
    assert (ms + [m])[..|ms|] == ms;
  }

  lemma {:induction false} FollowsBatch(s: State, before: seq<Incoming>, ms: seq<Incoming>, made: int)
    requires Follows(s, before, made)
    ensures Follows(ReceiveAll(s, ms), before + ms, made)
  {
    hide Follows, Receive;
    if ms == [] {
      assert before + ms == before;
    } else {
      var rest, m := ms[..|ms| - 1], ms[|ms| - 1];
      FollowsBatch(s, before, rest, made);
      FollowsOneMore(ReceiveAll(s, rest), before + rest, m, made);
      assert before + rest + [m] == before + ms;
    }
  }

  lemma OtherStepsKeepAdvice(s: State, e: Event)
    requires !e.MessagesArrive?
    ensures Step(s, e).reconnect == s.reconnect && Step(s, e).intervalMs == s.intervalMs
  {
    hide DoCall, ConnectTimerFires, HandshakeTimerFires, FlushTimerFires, BatchSendErr, Waiters;
    match e
    case CallApi(call) => CallEffects(s, call);
    case ConnectTimeout => TimerEffects(s);
    case HandshakeTimeout => TimerEffects(s);
    case FlushTimeout => FlushFrame(s);
    case SendFails(batchId) => SendErrFrame(s, batchId);
  }

  /** After every run the client follows the last reconnect advice it has received that it knows, and keeps
      the last interval. */
  lemma {:induction false} AdviceIsRemembered(intervalMs: int, es: seq<Event>)
    ensures var s := Run(Init(intervalMs), es);
      && NameOf(s.reconnect) == LastReconnect(Messages(es))
      && s.intervalMs == LastInterval(Messages(es), intervalMs)
  {
    if es != [] {
      var rest, e := es[..|es| - 1], es[|es| - 1];
      var s := Run(Init(intervalMs), rest);
      AdviceIsRemembered(intervalMs, rest);
      hide Run, ReceiveAll;
      if e.MessagesArrive? {
        FollowsBatch(s, Messages(rest), e.messages, intervalMs);
      } else {
        OtherStepsKeepAdvice(s, e);
        assert Messages(rest) + [] == Messages(rest);
      }
      LastTurn(Init(intervalMs), es);
    }
  }

  lemma LastTurn(s: State, es: seq<Event>)
    requires es != []
    ensures Run(s, es) == Step(Run(s, es[..|es| - 1]), es[|es| - 1])
  {
  }
}
