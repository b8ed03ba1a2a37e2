/** The handshake goes first (section 4.1 of the Bayeux Protocol 1.0): what the handshake index
    guarantees, and when it fails to. */
module Handshaking {
  import opened Bits
  import opened Ids
  import opened Documents
  import opened Engine
  import opened Runs
  import opened Ledger
  import opened Conservation
  import opened Correlation

  // ---------------------------------------------------------------------------------------------
  // The index names a queued handshake
  // ---------------------------------------------------------------------------------------------

  /** The index is in range and names a handshake, and only handshakes are in flight. */
  ghost predicate Guarded(es: seq<Entry>, index: int) {
    && 0 <= index < |es| && es[index].handler == RecvHandshake
    && !OtherInFlight(es)
  }

  lemma PushGuarded(es: seq<Entry>, index: int, doc: Doc, h: Handler, serial: nat)
    ensures OtherInFlight(es + [NewEntry(doc, h, serial)]) <==> OtherInFlight(es)
    ensures Guarded(es, index) ==> Guarded(es + [NewEntry(doc, h, serial)], index)
  {
    var fs := es + [NewEntry(doc, h, serial)];
    if OtherInFlight(es) {
      var i :| 0 <= i < |es| && es[i].InFlight() && es[i].handler != RecvHandshake;
      assert fs[i] == es[i];
    }
  }

  /** As long as no handshake has been queued with other messages in flight, the index is -1 or
      names a handshake, and no flush has read past the end of the outbox. */
  ghost predicate IndexSound(s: State) {
    !s.hist.overlapped ==>
      && !s.hist.staleRead
      && (s.handshakeIndex == -1 || Guarded(s.outbox, s.handshakeIndex))
  }

  lemma PushSound(s: State, doc: Doc, h: Handler)
    requires IndexSound(s)
    ensures IndexSound(Push(s, doc, h))
  {
    PushGuarded(s.outbox, s.handshakeIndex, doc, h, |s.hist.pushed|);
  }

  lemma IssueHandshakeSound(s: State)
    requires IndexSound(s)
    ensures IndexSound(IssueHandshake(s))
  {
    PushGuarded(s.outbox, |s.outbox|, HandshakeDoc(), RecvHandshake, |s.hist.pushed|);
  }

  lemma IssueConnectSound(s: State)
    requires IndexSound(s)
    ensures IndexSound(IssueConnect(s))
  {
    IssueHandshakeSound(s);
    PushSound(IssueHandshake(s).(connectInFlight := true), ConnectDoc(), RecvConnect);
  }

  lemma CallSound(s: State, call: ApiCall)
    requires IndexSound(s)
    ensures IndexSound(DoCall(s, call))
  {
    IssueConnectSound(Noted(s, call));
    PushSound(IssueConnect(Noted(s, call)), DocOf(call), HandlerOf(call));
  }

  lemma FlushOneGuarded(s: State, i: nat)
    requires Guarded(s.outbox, i)
    ensures Guarded(FlushOne(s, i).outbox, i)
  {
    var es, fs := s.outbox, FlushOne(s, i).outbox;
    assert forall j :: 0 <= j < |es| && j != i ==> fs[j] == es[j];
  }

  lemma SendErrGuarded(s: State, batchId: Word, i: int)
    requires Guarded(s.outbox, i)
    ensures Guarded(BatchSendErr(s, batchId).outbox, i)
  {
  }

  /** Under the guard a valid reply can only answer a handshake, which reopens the gate. */
  lemma GuardedReply(s: State, m: Incoming)
    requires Guarded(s.outbox, s.handshakeIndex)
    requires m.id.Some? && ParseId(m.id.value) != INVALID_ID && Find(s.outbox, ParseId(m.id.value)) >= 0
    ensures s.outbox[Find(s.outbox, ParseId(m.id.value))].handler == RecvHandshake
    ensures Reply(s, m).handshakeIndex == -1
  {
    var i := Find(s.outbox, ParseId(m.id.value));
    assert s.outbox[i].InFlight();
  }

  lemma ReplySound(s: State, m: Incoming)
    requires IndexSound(s) && (m.id.Some? ==> ParseId(m.id.value) != INVALID_ID)
    ensures IndexSound(Reply(s, m))
  {
    if m.id.Some? && Find(s.outbox, ParseId(m.id.value)) >= 0 {
      var i := Find(s.outbox, ParseId(m.id.value));
      HandlerLeavesOutbox(s, s.outbox[i].handler, m);
      if Guarded(s.outbox, s.handshakeIndex) {
        GuardedReply(s, m);
      }
    }
  }

  predicate ValidDataFreeReply(a: Action) {
    a.Replying? ==> a.m.data.None? && (a.m.id.Some? ==> ParseId(a.m.id.value) != INVALID_ID)
  }

  lemma FlushSound(s: State)
    requires IndexSound(s)
    ensures IndexSound(FlushTimerFires(s))
  {
    var t := s.(flushTimer := false);
    if Guarded(s.outbox, s.handshakeIndex) {
      FlushOneFrame(t, s.handshakeIndex);
      FlushOneGuarded(t, s.handshakeIndex);
    } else if s.handshakeIndex == -1 {
      FlushAllFrame(t);
    } else {
      FlushFrame(s);
    }
  }

  lemma SendErrSound(s: State, batchId: Word)
    requires IndexSound(s)
    ensures IndexSound(BatchSendErr(s, batchId))
  {
    SendErrFrame(s, batchId);
    if Guarded(s.outbox, s.handshakeIndex) {
      SendErrGuarded(s, batchId, s.handshakeIndex);
    }
  }

  lemma ConnectSound(s: State)
    requires IndexSound(s)
    ensures IndexSound(ConnectTimerFires(s))
  {
    IssueConnectSound(ConnectTimerDue(s));
  }

  lemma HandshakeSound(s: State)
    requires IndexSound(s)
    ensures IndexSound(HandshakeTimerFires(s))
  {
    IssueHandshakeSound(s.(handshakeTimer := false));
  }

  lemma QuietSound(s: State, a: Action)
    requires IndexSound(s) && Quiet(a)
    ensures IndexSound(Act(s, a))
  {
    QuietFrame(s, a);
  }

  lemma ActSound(s: State, a: Action)
    requires IndexSound(s) && ValidDataFreeReply(a)
    ensures IndexSound(Act(s, a))
  {
    hide IndexSound, DoCall, Reply, ConnectTimerFires, FlushTimerFires, HandshakeTimerFires, BatchSendErr;
    match a
    case Calling(call) => CallSound(s, call);
    case Replying(m) => ReplySound(s, m);
    case ConnectFiring => ConnectSound(s);
    case FlushFiring => FlushSound(s);
    case HandshakeFiring => HandshakeSound(s);
    case Failing(batchId) => SendErrSound(s, batchId);
    case _ => QuietSound(s, a);
  }

  /** In every run in which no handshake is queued while another kind of message is in flight, the
      handshake index is -1 or names a queued handshake, and only handshakes are in flight behind
      it. */
  lemma {:induction false} HandshakeIndexIsSound(intervalMs: int, es: seq<Event>)
    requires ValidReplies(es)
    ensures var s := Run(Init(intervalMs), es);
      !s.hist.overlapped ==>
        !s.hist.staleRead && (s.handshakeIndex == -1 || Guarded(s.outbox, s.handshakeIndex))
  {
    forall s, a | IndexSound(s) && ValidDataFreeReply(a) ensures IndexSound(Act(s, a)) {
      ActSound(s, a);
    }
    Everywhere(IndexSound, ValidDataFreeReply, Init(intervalMs), es);
  }

  /** Exactly what goes wrong otherwise: removing the answered entry of another kind leaves the index
      naming the same handshake if and only if that entry was behind it. */
  lemma {:induction false} IndexSurvivesExactly(intervalMs: int, es: seq<Event>, m: Incoming)
    requires var s := Run(Init(intervalMs), es);
      && 0 <= s.handshakeIndex < |s.outbox|
      && m.id.Some? && Find(s.outbox, ParseId(m.id.value)) >= 0
      && s.outbox[Find(s.outbox, ParseId(m.id.value))].handler != RecvHandshake
      && s.outbox[s.handshakeIndex].handler == RecvHandshake
    ensures var s := Run(Init(intervalMs), es);
      var t := Reply(s, m);
      && t.handshakeIndex == s.handshakeIndex
      && ((t.handshakeIndex < |t.outbox| &&
           t.outbox[t.handshakeIndex].serial == s.outbox[s.handshakeIndex].serial)
          <==> s.handshakeIndex < Find(s.outbox, ParseId(m.id.value)))
  {
    MessagesAreConserved(intervalMs, es);
    RemovalShiftsIndex(Run(Init(intervalMs), es), m);
  }

  lemma RemovalShiftsIndex(s: State, m: Incoming)
    requires Conserved(s) && 0 <= s.handshakeIndex < |s.outbox|
    requires m.id.Some? && Find(s.outbox, ParseId(m.id.value)) >= 0
    requires s.outbox[Find(s.outbox, ParseId(m.id.value))].handler != RecvHandshake
    requires s.outbox[s.handshakeIndex].handler == RecvHandshake
    ensures var t := Reply(s, m);
      && t.handshakeIndex == s.handshakeIndex
      && ((t.handshakeIndex < |t.outbox| &&
           t.outbox[t.handshakeIndex].serial == s.outbox[s.handshakeIndex].serial)
          <==> s.handshakeIndex < Find(s.outbox, ParseId(m.id.value)))
  {
    var i := Find(s.outbox, ParseId(m.id.value));
    HandlerLeavesOutbox(s, s.outbox[i].handler, m);
    assert Reply(s, m).outbox == RemoveAt(s.outbox, i);
    if i < s.handshakeIndex && s.handshakeIndex + 1 < |s.outbox| {
      SerialsIncrease(s, s.handshakeIndex, s.handshakeIndex + 1);
    }
  }

  // ---------------------------------------------------------------------------------------------
  // Exactly when a handshake keeps its index
  // ---------------------------------------------------------------------------------------------

  ghost predicate AnsweredSince(ds: seq<Dispatched>, from: nat) {
    exists k :: from <= k < |ds| && ds[k].handler == RecvHandshake
  }

  /** The index is in range and names a handshake, unless one has been answered since. */
  ghost predicate IndexHolds(s: State, from: nat) {
    !AnsweredSince(s.hist.dispatched, from) ==>
      0 <= s.handshakeIndex < |s.outbox| && s.outbox[s.handshakeIndex].handler == RecvHandshake
  }

  ghost predicate GuardedSince(s: State, from: nat) {
    && from <= |s.hist.dispatched|
    && (!AnsweredSince(s.hist.dispatched, from) ==> Guarded(s.outbox, s.handshakeIndex))
  }

  lemma IssueHandshakeGuardedSince(s: State, from: nat)
    requires GuardedSince(s, from)
    ensures GuardedSince(IssueHandshake(s), from)
  {
    PushGuarded(s.outbox, |s.outbox|, HandshakeDoc(), RecvHandshake, |s.hist.pushed|);
  }

  lemma IssueGuardedSince(s: State, from: nat)
    requires GuardedSince(s, from)
    ensures GuardedSince(IssueHandshake(s), from) && GuardedSince(IssueConnect(s), from)
  {
    hide IssueHandshake, Guarded, AnsweredSince;
    IssueHandshakeGuardedSince(s, from);
    var t := IssueHandshake(s);
    PushGuarded(t.outbox, t.handshakeIndex, ConnectDoc(), RecvConnect, |t.hist.pushed|);
  }

  lemma CallGuardedSince(s: State, call: ApiCall, from: nat)
    requires GuardedSince(s, from)
    ensures GuardedSince(DoCall(s, call), from)
  {
    hide IssueConnect, Matching, Guarded;
    IssueGuardedSince(Noted(s, call), from);
    var t := IssueConnect(Noted(s, call));
    PushGuarded(t.outbox, t.handshakeIndex, DocOf(call), HandlerOf(call), |t.hist.pushed|);
  }

  lemma TimersGuardedSince(s: State, from: nat)
    requires GuardedSince(s, from)
    ensures GuardedSince(ConnectTimerFires(s), from) && GuardedSince(HandshakeTimerFires(s), from)
  {
    hide IssueHandshake, IssueConnect, Guarded;
    IssueGuardedSince(ConnectTimerDue(s), from);
    IssueGuardedSince(s.(handshakeTimer := false), from);
  }

  lemma ReplyGuardedSince(s: State, m: Incoming, from: nat)
    requires GuardedSince(s, from) && (m.id.Some? ==> ParseId(m.id.value) != INVALID_ID)
    ensures GuardedSince(Reply(s, m), from)
  {
    hide Guarded, ParseId, Handle;
    ReplyFrame(s, m);
    if m.id.Some? && Find(s.outbox, ParseId(m.id.value)) >= 0 {
      var ds, ds' := s.hist.dispatched, Reply(s, m).hist.dispatched;
      if AnsweredSince(ds, from) {
        var k :| from <= k < |ds| && ds[k].handler == RecvHandshake;
        assert ds'[k] == ds[k];
      } else {
        GuardedReply(s, m);
        assert ds'[|ds|].handler == RecvHandshake;
      }
    }
  }

  lemma FlushGuardedSince(s: State, from: nat)
    requires GuardedSince(s, from)
    ensures GuardedSince(FlushTimerFires(s), from)
  {
    hide FlushOne, FlushAll;
    FlushFrame(s);
    if Guarded(s.outbox, s.handshakeIndex) {
      FlushOneGuarded(s.(flushTimer := false), s.handshakeIndex);
    }
  }

  lemma SendErrGuardedSince(s: State, batchId: Word, from: nat)
    requires GuardedSince(s, from)
    ensures GuardedSince(BatchSendErr(s, batchId), from)
  {
    hide BatchSendErr, Guarded;
    SendErrFrame(s, batchId);
    if Guarded(s.outbox, s.handshakeIndex) {
      SendErrGuarded(s, batchId, s.handshakeIndex);
    }
  }

  lemma ActGuardedSince(s: State, a: Action, from: nat)
    requires GuardedSince(s, from) && ValidDataFreeReply(a)
    ensures GuardedSince(Act(s, a), from)
  {
    hide DoCall, Reply, ConnectTimerFires, FlushTimerFires, HandshakeTimerFires, BatchSendErr, HandleAdvice, Guarded;
    match a
    case Calling(call) => CallGuardedSince(s, call, from);
    case Replying(m) => ReplyGuardedSince(s, m, from);
    case ConnectFiring => TimersGuardedSince(s, from);
    case FlushFiring => FlushGuardedSince(s, from);
    case HandshakeFiring => TimersGuardedSince(s, from);
    case Failing(batchId) => SendErrGuardedSince(s, batchId, from);
    case _ => QuietFrame(s, a);
  }

  lemma {:induction false} IndexHeld(s: State, from: nat, es: seq<Event>)
    requires GuardedSince(s, from) && ValidReplies(es)
    ensures IndexHolds(Run(s, es), from)
  {
    var inv := (t: State) => GuardedSince(t, from);
    forall t, a | inv(t) && ValidDataFreeReply(a) ensures inv(Act(t, a)) {
      ActGuardedSince(t, a, from);
    }
    Everywhere(inv, ValidDataFreeReply, s, es);
  }

  /** The turn in which the server answers one message and says nothing else. */
  function Echo(id: Word): Incoming {
    Incoming(None, Some(IdText(id)), None, None, None, None, [])
  }

  /** Answering a message of another kind makes the last index name nothing. */
  lemma EchoLosesIndex(s: State, i: nat)
    requires IdsDiffer(s.outbox) && i < |s.outbox| && s.outbox[i].InFlight()
    requires s.outbox[i].handler != RecvHandshake && s.handshakeIndex == |s.outbox| - 1
    ensures ValidReplies([MessagesArrive([Echo(s.outbox[i].msgId)])])
    ensures !IndexHolds(Run(s, [MessagesArrive([Echo(s.outbox[i].msgId)])]), |s.hist.dispatched|)
  {
    hide IdText, ParseId, Receive;
    var m := Echo(s.outbox[i].msgId);
    var ms, es := [m], [MessagesArrive([m])];
    IdTextRoundTrip(s.outbox[i].msgId);
    ReplyRunsOwnHandler(s, m, i);
    AdviceLeavesOutbox(s, m);
    assert ms[..0] == [] && es[..0] == [];
    assert ReceiveAll(s, ms) == Receive(ReceiveAll(s, ms[..0]), m);
    assert Run(s, es) == Step(Run(s, es[..0]), es[0]);
  }

  lemma {:induction false} IndexIsLost(s: State)
    requires Kept(s) && MsgWindow(s) && s.phase == Unconnected && s.reconnect != ReconnectNone
    requires OtherInFlight(s.outbox)
    ensures exists es :: ValidReplies(es) && !IndexHolds(Run(IssueHandshake(s), es), |s.hist.dispatched|)
  {
    hide Run, ValidReplies, IndexHolds;
    var t := IssueHandshake(s);
    var i :| 0 <= i < |s.outbox| && s.outbox[i].InFlight() && s.outbox[i].handler != RecvHandshake;
    IssueHandshakeKeeps(s);
    KeptIdsDiffer(t);
    assert t.outbox[i] == s.outbox[i];
    EchoLosesIndex(t, i);
  }

  /** In every state that a client reaches and in which it may issue a handshake: the new handshake's index
      stays in range and on a handshake until a handshake is answered, in every continuation, if and only
      if no other kind of message is in flight when it is issued. */
  lemma {:induction false} IndexHoldsExactly(intervalMs: int, before: seq<Event>)
    requires var s := Run(Init(intervalMs), before);
      s.phase == Unconnected && s.reconnect != ReconnectNone && MsgWindow(s)
    ensures var s := Run(Init(intervalMs), before);
      (forall es :: ValidReplies(es) ==> IndexHolds(Run(IssueHandshake(s), es), |s.hist.dispatched|))
      <==> !OtherInFlight(s.outbox)
  {
    var s := Run(Init(intervalMs), before);
    EntriesAreKept(intervalMs, before);
    hide Run, IndexHolds, ValidReplies;
    if OtherInFlight(s.outbox) {
      IndexIsLost(s);
    } else {
      NewIndexGuarded(s);
      forall es | ValidReplies(es) ensures IndexHolds(Run(IssueHandshake(s), es), |s.hist.dispatched|) {
        IndexHeld(IssueHandshake(s), |s.hist.dispatched|, es);
      }
    }
  }

  lemma NewIndexGuarded(s: State)
    requires s.phase == Unconnected && s.reconnect != ReconnectNone && !OtherInFlight(s.outbox)
    ensures GuardedSince(IssueHandshake(s), |s.hist.dispatched|)
  {
    PushGuarded(s.outbox, |s.outbox|, HandshakeDoc(), RecvHandshake, |s.hist.pushed|);
  }

  // ---------------------------------------------------------------------------------------------
  // The gate of the first session
  // ---------------------------------------------------------------------------------------------

  ghost predicate HandshakeAnswered(ds: seq<Dispatched>) {
    exists k :: 0 <= k < |ds| && ds[k].handler == RecvHandshake
  }

  /** Empty, or an array holding one handshake. */
  predicate HandshakeOnly(t: Transmission) {
    t.Blank? || (|t.items| == 1 && Unlabelled(t.items[0].doc) == HandshakeDoc())
  }

  ghost predicate HandshakesOnly(sent: seq<Transmission>) {
    forall k :: 0 <= k < |sent| ==> HandshakeOnly(sent[k])
  }

  ghost predicate HandshakesCarryDoc(es: seq<Entry>) {
    forall i :: 0 <= i < |es| && es[i].handler == RecvHandshake ==> Unlabelled(es[i].doc) == HandshakeDoc()
  }

  /** Until a handshake has been answered, the gate is closed and has let only handshakes out. */
  ghost predicate GateHolds(s: State) {
    !HandshakeAnswered(s.hist.dispatched) ==>
      && Guarded(s.outbox, s.handshakeIndex)
      && HandshakesCarryDoc(s.outbox)
      && HandshakesOnly(s.hist.sent)
  }

  lemma PushGate(s: State, doc: Doc, h: Handler)
    requires GateHolds(s) && (h == RecvHandshake ==> doc == HandshakeDoc())
    ensures GateHolds(Push(s, doc, h))
  {
    PushGuarded(s.outbox, s.handshakeIndex, doc, h, |s.hist.pushed|);
  }

  lemma IssueHandshakeGate(s: State)
    requires GateHolds(s)
    ensures GateHolds(IssueHandshake(s))
  {
    PushGuarded(s.outbox, s.handshakeIndex, HandshakeDoc(), RecvHandshake, |s.hist.pushed|);
  }

  lemma IssueConnectGate(s: State)
    requires GateHolds(s)
    ensures GateHolds(IssueConnect(s))
  {
    IssueHandshakeGate(s);
    PushGate(IssueHandshake(s).(connectInFlight := true), ConnectDoc(), RecvConnect);
  }

  lemma CallGate(s: State, call: ApiCall)
    requires GateHolds(s)
    ensures GateHolds(DoCall(s, call))
  {
    IssueConnectGate(Noted(s, call));
    PushGate(IssueConnect(Noted(s, call)), DocOf(call), HandlerOf(call));
  }

  /** Nothing has been queued yet, and the server has not asked for silence. */
  ghost predicate Pristine(s: State) {
    && s.outbox == [] && s.phase == Unconnected && s.reconnect != ReconnectNone
    && HandshakesOnly(s.hist.sent) && s.hist.dispatched == []
  }

  lemma FirstHandshakeGate(s: State)
    requires Pristine(s)
    ensures GateHolds(IssueHandshake(s))
  {
    assert IssueHandshake(s).outbox == [NewEntry(HandshakeDoc(), RecvHandshake, |s.hist.pushed|)];
  }

  lemma FirstConnectGate(s: State)
    requires Pristine(s)
    ensures GateHolds(IssueConnect(s))
  {
    FirstHandshakeGate(s);
    PushGate(IssueHandshake(s).(connectInFlight := true), ConnectDoc(), RecvConnect);
  }

  /** The first call makes a handshake before anything else, and closes the gate behind it. */
  lemma FirstCallGate(intervalMs: int, call: ApiCall)
    ensures GateHolds(DoCall(Init(intervalMs), call))
  {
    hide IssueConnect, Matching;
    var s := Noted(Init(intervalMs), call);
    FirstConnectGate(s);
    PushGate(IssueConnect(s), DocOf(call), HandlerOf(call));
  }

  lemma FlushOneGate(s: State, i: nat)
    requires i < |s.outbox| && s.outbox[i].handler == RecvHandshake && HandshakesCarryDoc(s.outbox)
    ensures HandshakesCarryDoc(FlushOne(s, i).outbox)
    ensures HandshakeOnly(OneTransmission(s, i))
  {
    LabellingKeepsTheRest(s.outbox[i].doc, IdAt(s.msgTicks), s.clientId);
  }

  lemma ReplyGate(s: State, m: Incoming)
    requires GateHolds(s) && (m.id.Some? ==> ParseId(m.id.value) != INVALID_ID)
    ensures GateHolds(Reply(s, m))
  {
    if m.id.Some? && Find(s.outbox, ParseId(m.id.value)) >= 0 {
      var i := Find(s.outbox, ParseId(m.id.value));
      var t := Reply(s, m);
      HandlerLeavesOutbox(s, s.outbox[i].handler, m);
      if HandshakeAnswered(s.hist.dispatched) {
        var k :| 0 <= k < |s.hist.dispatched| && s.hist.dispatched[k].handler == RecvHandshake;
        assert t.hist.dispatched[k] == s.hist.dispatched[k];
      } else {
        GuardedReply(s, m);
        assert t.hist.dispatched[|s.hist.dispatched|].handler == RecvHandshake;
      }
    }
  }

  lemma FlushGate(s: State)
    requires GateHolds(s)
    ensures GateHolds(FlushTimerFires(s))
  {
    var t := s.(flushTimer := false);
    if HandshakeAnswered(s.hist.dispatched) {
      FlushFrame(s);
    } else {
      FlushOneFrame(t, s.handshakeIndex);
      FlushOneGuarded(t, s.handshakeIndex);
      FlushOneGate(t, s.handshakeIndex);
    }
  }

  lemma SendErrGate(s: State, batchId: Word)
    requires GateHolds(s)
    ensures GateHolds(BatchSendErr(s, batchId))
  {
    SendErrFrame(s, batchId);
    if !HandshakeAnswered(s.hist.dispatched) {
      SendErrGuarded(s, batchId, s.handshakeIndex);
    }
  }

  lemma ConnectGate(s: State)
    requires GateHolds(s)
    ensures GateHolds(ConnectTimerFires(s))
  {
    IssueConnectGate(ConnectTimerDue(s));
  }

  lemma HandshakeGate(s: State)
    requires GateHolds(s)
    ensures GateHolds(HandshakeTimerFires(s))
  {
    IssueHandshakeGate(s.(handshakeTimer := false));
  }

  lemma QuietGate(s: State, a: Action)
    requires GateHolds(s) && Quiet(a)
    ensures GateHolds(Act(s, a))
  {
    QuietFrame(s, a);
  }

  lemma ActGate(s: State, a: Action)
    requires GateHolds(s) && ValidDataFreeReply(a)
    ensures GateHolds(Act(s, a))
  {
    hide GateHolds, DoCall, Reply, ConnectTimerFires, FlushTimerFires, HandshakeTimerFires, BatchSendErr;
    match a
    case Calling(call) => CallGate(s, call);
    case Replying(m) => ReplyGate(s, m);
    case ConnectFiring => ConnectGate(s);
    case FlushFiring => FlushGate(s);
    case HandshakeFiring => HandshakeGate(s);
    case Failing(batchId) => SendErrGate(s, batchId);
    case _ => QuietGate(s, a);
  }

  /** A client whose life starts with an API call sends nothing but handshakes, one at a time, until
      a handshake has been answered, whatever calls, advice, timers and send errors come between. */
  lemma {:induction false} HandshakeGoesFirst(intervalMs: int, first: ApiCall, es: seq<Event>)
    requires ValidReplies(es)
    ensures var s := Run(DoCall(Init(intervalMs), first), es);
      !HandshakeAnswered(s.hist.dispatched) ==> HandshakesOnly(s.hist.sent)
  {
    forall s, a | GateHolds(s) && ValidDataFreeReply(a) ensures GateHolds(Act(s, a)) {
      ActGate(s, a);
    }
    FirstCallGate(intervalMs, first);
    Everywhere(GateHolds, ValidDataFreeReply, DoCall(Init(intervalMs), first), es);
  }
}
