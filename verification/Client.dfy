/** The client as a program: fields updated in place, over the outbox and the channel table. Every
    method makes exactly the step that the machine in `Engine` makes. */
module Client {
  import opened Bits
  import opened Ids
  import opened Documents
  import opened Engine
  import opened Outbox
  import opened Channels
  import opened GrowableString
  import opened WireText
  import opened Sending

  class BayeuxClient {
    /** How json-c prints an object. */
    const toText: Doc -> string

    var phase: Phase
    var reconnect: Reconnect
    var intervalMs: int
    var clientId: Option<string>
    var batchId: Word
    var messageId: Word
    var connectTimer: bool
    var flushTimer: bool
    var handshakeTimer: bool
    const table: ChannelTable
    const outbox: MsgQueue
    var handshakeIndex: int
    var connectInFlight: bool

    /** The texts given to the transport. */
    var wire: seq<string>

    ghost var msgTicks: nat
    ghost var batchTicks: nat
    ghost var hist: History

    ghost predicate Valid()
      reads this, outbox, outbox.Repr, table, table.Repr
    {
      && this !in outbox.Repr && this !in table.Repr && outbox.Repr !! table.Repr
      && outbox.Valid() && outbox.HeldOnce() && table.Valid()
      && messageId == IdAt(msgTicks) && batchId == IdAt(batchTicks)
      && WireMatches(wire, hist.sent, toText)
    }

    /** None of these objects belongs to the client. */
    ghost predicate Apart(objects: set<object>)
      reads this, outbox, table
    {
      this !in objects && objects !! outbox.Repr && objects !! table.Repr
    }

    static ghost predicate WireMatches(wire: seq<string>, sent: seq<Transmission>, toText: Doc -> string) {
      && |wire| == |sent|
      && forall k :: 0 <= k < |wire| ==> wire[k] == TextOf(sent[k], toText)
    }

    /** The state of the machine that this object is in. */
    ghost function Abs(): State
      requires Valid()
      reads this, outbox, outbox.Repr, table, table.Repr
    {
      State(phase, reconnect, intervalMs, clientId, msgTicks, batchTicks,
            connectTimer, flushTimer, handshakeTimer,
            table.log, outbox.entries, handshakeIndex, connectInFlight, hist)
    }

    /** `bayeux_client_create`. */
    constructor (intervalMs: int, toText: Doc -> string)
      ensures Valid() && fresh(outbox.Repr) && fresh(table.Repr)
      ensures Abs() == Init(intervalMs) && this.toText == toText
    {
      this.toText := toText;
      phase := Unconnected;
      reconnect := ReconnectRetry;
      this.intervalMs := intervalMs;
      clientId := None;
      batchId := 0;
      messageId := 0;
      connectTimer, flushTimer, handshakeTimer := false, false, false;
      handshakeIndex := -1;
      connectInFlight := false;
      wire := [];
      msgTicks, batchTicks := 0, 0;
      hist := History([], [], [], [], [], false, false, false, false);
      table := new ChannelTable();
      outbox := new MsgQueue();
      new;
    }

    // -------------------------------------------------------------------------------------------
    // Ids and queueing
    // -------------------------------------------------------------------------------------------

    /** `next_message_id`. */
    method NextMessageId() returns (id: Word)
      requires messageId == IdAt(msgTicks)
      modifies this`messageId, this`msgTicks
      ensures id == IdAt(old(msgTicks)) && msgTicks == old(msgTicks) + 1
      ensures messageId == IdAt(msgTicks)
    {
      id := messageId;
      messageId := (messageId + 1) % W32;
      if messageId == INVALID_ID {
        messageId := (messageId + 1) % W32;
      }
      GeneratorFollowsSequence(msgTicks);
      msgTicks := msgTicks + 1;
    }

    /** `next_batch_id`. */
    method NextBatchId() returns (id: Word)
      requires batchId == IdAt(batchTicks)
      modifies this`batchId, this`batchTicks
      ensures id == IdAt(old(batchTicks)) && batchTicks == old(batchTicks) + 1
      ensures batchId == IdAt(batchTicks)
    {
      id := batchId;
      batchId := (batchId + 1) % W32;
      if batchId == INVALID_ID {
        batchId := (batchId + 1) % W32;
      }
      GeneratorFollowsSequence(batchTicks);
      batchTicks := batchTicks + 1;
    }

    /** Makes a message and pushes it. */
    method PushMessage(doc: Doc, handler: Handler) returns (idx: nat)
      requires Valid()
      modifies this, outbox.Repr
      ensures Valid() && fresh(outbox.Repr - old(outbox.Repr))
      ensures Abs() == Push(old(Abs()), doc, handler)
      ensures idx == |old(outbox.entries)|
      ensures table.rows == old(table.rows) && table.log == old(table.log)
    {
      idx := outbox.PushNew(doc, handler, |hist.pushed|);
      hist := hist.(pushed := hist.pushed + [Pushed(doc, handler)]);
    }

    /** `schedule_flush`. */
    method ScheduleFlush()
      requires Valid()
      modifies this`flushTimer
      ensures Valid() && Abs() == Engine.ScheduleFlush(old(Abs()))
    {
      if !flushTimer {
        flushTimer := true;
      }
    }

    /** `schedule_connect`. */
    method ScheduleConnect()
      requires Valid()
      modifies this`connectTimer
      ensures Valid() && Abs() == Engine.ScheduleConnect(old(Abs()))
    {
      if !connectTimer {
        connectTimer := true;
      }
    }

    /** `issue_handshake`. */
    method IssueHandshake()
      requires Valid()
      modifies this, outbox.Repr
      ensures Valid() && fresh(outbox.Repr - old(outbox.Repr))
      ensures Abs() == Engine.IssueHandshake(old(Abs()))
      ensures table.rows == old(table.rows) && table.log == old(table.log)
    {
      if phase != Unconnected {
        return;
      }
      if reconnect == ReconnectNone {
        return;
      }
      StartConnecting();
      QueueHandshake();
      ScheduleFlush();
    }

    method StartConnecting()
      requires Valid()
      modifies this`phase, this`hist
      ensures Valid()
      ensures var s := old(Abs());
        Abs() == s.(phase := Connecting,
                    hist := s.hist.(overlapped := s.hist.overlapped || OtherInFlight(s.outbox)))
    {
      hide OtherInFlight;
      ghost var other := OtherInFlight(outbox.entries);
      phase := Connecting;
      hist := hist.(overlapped := hist.overlapped || other);
    }

    method QueueHandshake()
      requires Valid()
      modifies this, outbox.Repr
      ensures Valid() && fresh(outbox.Repr - old(outbox.Repr))
      ensures var s := old(Abs());
        Abs() == Push(s, HandshakeDoc(), RecvHandshake).(handshakeIndex := |s.outbox|)
      ensures table.rows == old(table.rows) && table.log == old(table.log)
    {
      handshakeIndex := PushMessage(HandshakeDoc(), RecvHandshake);
    }

    /** `issue_connect`. */
    method IssueConnect()
      requires Valid()
      modifies this, outbox.Repr
      ensures Valid() && fresh(outbox.Repr - old(outbox.Repr))
      ensures Abs() == Engine.IssueConnect(old(Abs()))
      ensures table.rows == old(table.rows) && table.log == old(table.log)
    {
      IssueHandshake();
      if reconnect == ReconnectNone {
        return;
      }
      if connectInFlight {
        return;
      }
      QueueConnect();
      ScheduleFlush();
    }

    method QueueConnect()
      requires Valid()
      modifies this, outbox.Repr
      ensures Valid() && fresh(outbox.Repr - old(outbox.Repr))
      ensures var t := Push(old(Abs()).(connectInFlight := true), ConnectDoc(), RecvConnect);
        Abs() == t.(hist := t.hist.(parked := false))
      ensures table.rows == old(table.rows) && table.log == old(table.log)
    {
      connectInFlight := true;
      hist := hist.(parked := false);
      var _ := PushMessage(ConnectDoc(), RecvConnect);
    }

    // -------------------------------------------------------------------------------------------
    // The API
    // -------------------------------------------------------------------------------------------

    /** The common part of the API calls: connect if need be, and queue a message. */
    method Request(doc: Doc, handler: Handler)
      requires Valid()
      modifies this, outbox.Repr
      ensures Valid() && fresh(outbox.Repr - old(outbox.Repr))
      ensures Abs() == Engine.ScheduleFlush(Push(Engine.IssueConnect(old(Abs())), doc, handler))
      ensures table.rows == old(table.rows) && table.log == old(table.log)
    {
      IssueConnect();
      var _ := PushMessage(doc, handler);
      ScheduleFlush();
    }

    /** `channels_subscribe`, noting a write past the end of a channel's array. */
    method Register(r: Registration)
      requires Valid()
      modifies this, outbox.Repr, table.Repr
      ensures Valid() && fresh(outbox.Repr - old(outbox.Repr)) && fresh(table.Repr - old(table.Repr))
      ensures Abs() == Engine.Register(old(Abs()), r)
      ensures old(table.rows) <= table.rows && old(table.log) <= table.log
    {
      var stored := AddToTable(r);
      hist := hist.(registered := hist.registered + [r], overrun := hist.overrun || !stored);
    }

    method AddToTable(r: Registration) returns (stored: bool)
      requires Valid()
      modifies this, outbox.Repr, table.Repr
      ensures Valid() && fresh(outbox.Repr - old(outbox.Repr)) && fresh(table.Repr - old(table.Repr))
      ensures stored <==> |Matching(old(table.log), r.channel)| < CHANNEL_LIMIT
      ensures var s := old(Abs());
        Abs() == if stored then s.(subs := s.subs + [r]) else s
      ensures old(table.rows) <= table.rows && old(table.log) <= table.log
    {
      stored := table.Subscribe(r);
    }

    /** `bayeux_client_publish`, `bayeux_client_subscribe` and `bayeux_client_unsubscribe`. */
    method CallApi(call: ApiCall)
      requires Valid()
      modifies this, outbox.Repr, table.Repr
      ensures Valid() && fresh(outbox.Repr - old(outbox.Repr)) && fresh(table.Repr - old(table.Repr))
      ensures Abs() == DoCall(old(Abs()), call)
      ensures old(table.rows) <= table.rows && old(table.log) <= table.log
    {
      match call
      case Publish(channel, data) => Request(PublishDoc(channel, data), RecvPublish);
      case Subscribe(channel, callback, context) =>
        Register(Registration(channel, callback, context));
        Request(SubscribeDoc(channel), RecvSubscribe);
      case Unsubscribe(channel) => Request(UnsubscribeDoc(channel), RecvUnsubscribe);
    }

    // -------------------------------------------------------------------------------------------
    // Events
    // -------------------------------------------------------------------------------------------

    /** An event callback, and what the application calls from inside it. */
    method CallBackAndReact(sub: Subscription, data: string, calls: seq<ApiCall>)
      requires Valid()
      modifies this, outbox.Repr, table.Repr
      ensures Valid() && fresh(outbox.Repr - old(outbox.Repr)) && fresh(table.Repr - old(table.Repr))
      ensures forall r: Registration :: Stored(r) == sub ==> Abs() == DeliverOne(old(Abs()), r, data, calls)
      ensures old(table.rows) <= table.rows && old(table.log) <= table.log
    {
      hide DoCall;
      hist := hist.(calls := hist.calls + [Call(sub.callback, sub.context, data)]);
      ghost var s := Abs();
      for i := 0 to |calls|
        invariant Valid() && fresh(outbox.Repr - old(outbox.Repr)) && fresh(table.Repr - old(table.Repr))
        invariant Abs() == DoCalls(s, calls[..i])
        invariant old(table.rows) <= table.rows && old(table.log) <= table.log
      {
        CallApi(calls[i]);
        assert calls[..i + 1][..i] == calls[..i];
      }
      assert calls[..|calls|] == calls;
    }

    /** One callback of the inner loop of `channel_deliver`. The channel may gain subscriptions, and a
        new array, while it runs. */
    method DeliverNth(index: nat, n: nat, m: Incoming, ghost regs: seq<Registration>)
      requires Valid() && index < table.channelCount && m.data.Some?
      requires n < |regs| && regs <= table.rows[index].held
      modifies this, outbox.Repr, table.Repr
      ensures Valid() && fresh(outbox.Repr - old(outbox.Repr)) && fresh(table.Repr - old(table.Repr))
      ensures Abs() == DeliverOne(old(Abs()), regs[n], m.data.value, m.Reaction(n))
      ensures old(table.rows) <= table.rows && old(table.log) <= table.log
      ensures regs <= table.rows[index].held
    {
      ghost var log := table.log;
      var channel := table.channels[index];
      assert channel == table.rows[index];
      var sub := channel.subscriptions[n];
      assert sub == Stored(regs[n]);
      CallBackAndReact(sub, m.data.value, m.Reaction(n));
      MatchingPrefix(log, table.log, channel.name);
    }

    /** The inner loop of `channel_deliver`; the number of callbacks is fixed beforehand. */
    method DeliverTo(index: nat, m: Incoming, ghost regs: seq<Registration>)
      requires Valid() && index < table.channelCount && m.data.Some?
      requires regs == table.rows[index].held
      modifies this, outbox.Repr, table.Repr
      ensures Valid() && fresh(outbox.Repr - old(outbox.Repr)) && fresh(table.Repr - old(table.Repr))
      ensures Abs() == Deliver(old(Abs()), regs, m, |regs|)
      ensures old(table.rows) <= table.rows
    {
      hide Deliver, DeliverOne, Matching;
      ghost var s := Abs();
      DeliverStarts(s, regs, m);
      assert table.channels[index] == table.rows[index];
      var subCount := table.channels[index].count;
      for subIndex := 0 to subCount
        invariant Valid() && fresh(outbox.Repr - old(outbox.Repr)) && fresh(table.Repr - old(table.Repr))
        invariant Abs() == Deliver(s, regs, m, subIndex)
        invariant old(table.rows) <= table.rows && regs <= table.rows[index].held
      {
        DeliverNth(index, subIndex, m, regs);
        DeliverContinues(s, regs, m, subIndex);
      }
    }

    /** The body of the outer loop of `channel_deliver`. */
    method DeliverIfNamed(index: nat, target: string, m: Incoming)
      requires Valid() && index < table.channelCount && m.data.Some?
      modifies this, outbox.Repr, table.Repr
      ensures Valid() && fresh(outbox.Repr - old(outbox.Repr)) && fresh(table.Repr - old(table.Repr))
      ensures var regs := Matching(old(Abs()).subs, target);
        Abs() == if old(table.names)[index] == target then Deliver(old(Abs()), regs, m, |regs|) else old(Abs())
      ensures old(table.rows) <= table.rows
    {
      var channel := table.channels[index];
      assert channel == table.rows[index];
      if target == channel.name {
        DeliverTo(index, m, channel.held);
      }
    }

    /** `channel_deliver`. */
    method ChannelDeliver(target: string, m: Incoming)
      requires Valid() && m.data.Some?
      modifies this, outbox.Repr, table.Repr
      ensures Valid() && fresh(outbox.Repr - old(outbox.Repr)) && fresh(table.Repr - old(table.Repr))
      ensures var regs := Matching(old(Abs()).subs, target);
        Abs() == Deliver(old(Abs()), regs, m, |regs|)
    {
      ghost var s, names, rows := Abs(), table.names, table.rows;
      ghost var regs := Matching(s.subs, target);
      NoRegistrationUnlessNamed(table.log, names, target);
      DeliverStarts(s, [], m);
      hide Deliver, Matching;
      var chanCount := table.channelCount;
      for chanIndex := 0 to chanCount
        invariant Valid() && fresh(outbox.Repr - old(outbox.Repr)) && fresh(table.Repr - old(table.Repr))
        invariant rows <= table.rows
        invariant Abs() == if target in names[..chanIndex] then Deliver(s, regs, m, |regs|) else s
      {
        assert table.names[chanIndex] == table.rows[chanIndex].name == names[chanIndex];
        assert names[..chanIndex + 1] == names[..chanIndex] + [names[chanIndex]];
        DeliverIfNamed(chanIndex, target, m);
      }
      assert names[..chanCount] == names;
    }

    // -------------------------------------------------------------------------------------------
    // Messages from the server
    // -------------------------------------------------------------------------------------------

    /** The loop over the reconnect strings in `handle_advice`. */
    method TakeReconnect(text: string)
      requires Valid()
      modifies this`reconnect
      ensures Valid()
      ensures Abs() == old(Abs()).(reconnect :=
                if ReconnectOf(text).Some? then ReconnectOf(text).value else old(reconnect))
    {
      var strs := ["handshake", "none", "retry"];
      var values := [ReconnectHandshake, ReconnectNone, ReconnectRetry];
      for index := 0 to 3
        invariant forall j :: 0 <= j < index && text == strs[j] ==> reconnect == values[j]
        invariant (forall j :: 0 <= j < index ==> text != strs[j]) ==> reconnect == old(reconnect)
      {
        if text == strs[index] {
          var newVal := values[index];
          if newVal != reconnect {
            reconnect := newVal;
            break;
          }
        }
      }
      assert strs[0] == "handshake" && strs[1] == "none" && strs[2] == "retry";
    }

    method TakeAdvice(m: Incoming)
      requires Valid()
      modifies this`reconnect, this`intervalMs
      ensures Valid() && Abs() == Engine.TakeAdvice(old(Abs()), m)
    {
      if m.advice.Some? {
        var advice := m.advice.value;
        if advice.reconnect.Some? {
          TakeReconnect(advice.reconnect.value);
        }
        if advice.interval.Some? {
          intervalMs := advice.interval.value;
        }
      }
    }

    /** `handle_advice`. */
    method HandleAdvice(m: Incoming)
      requires Valid()
      modifies this`reconnect, this`intervalMs, this`phase, this`connectTimer
      ensures Valid() && Abs() == Engine.HandleAdvice(old(Abs()), m)
    {
      TakeAdvice(m);
      if reconnect == ReconnectHandshake {
        phase := Unconnected;
        ScheduleConnect();
      }
    }

    /** `recv_event`. */
    method RecvEvent(m: Incoming)
      requires Valid() && m.data.Some?
      modifies this, outbox.Repr, table.Repr
      ensures Valid() && fresh(outbox.Repr - old(outbox.Repr)) && fresh(table.Repr - old(table.Repr))
      ensures Abs() == Engine.RecvEvent(old(Abs()), m)
    {
      if m.channel.None? {
        return;
      }
      ChannelDeliver(m.channel.value, m);
    }

    /** `recv_handshake_error`. */
    method RecvHandshakeError()
      requires Valid()
      modifies this`handshakeTimer, this`phase
      ensures Valid() && Abs() == HandshakeFailed(old(Abs()))
    {
      handshakeTimer := true;
      phase := Unconnected;
    }

    /** `recv_handshake_success`. */
    method RecvHandshakeSuccess(m: Incoming)
      requires Valid()
      modifies this`handshakeTimer, this`phase, this`clientId
      ensures Valid()
      ensures Abs() == if m.channel != Some(HANDSHAKE_CHANNEL) || m.clientId.None?
                       then HandshakeFailed(old(Abs()))
                       else old(Abs()).(clientId := m.clientId, phase := Connected)
    {
      if m.channel.None? {
        RecvHandshakeError();
        return;
      }
      if m.channel.value != HANDSHAKE_CHANNEL {
        RecvHandshakeError();
        return;
      }
      if m.clientId.None? {
        RecvHandshakeError();
        return;
      }
      clientId := m.clientId;
      phase := Connected;
    }

    /** `recv_handshake`. */
    method RecvHandshakeReply(m: Incoming)
      requires Valid()
      modifies this`handshakeIndex, this`handshakeTimer, this`phase, this`clientId
      ensures Valid() && Abs() == HandshakeReply(old(Abs()), m)
    {
      handshakeIndex := -1;
      if m.successful.None? {
        return;
      }
      if m.successful.value {
        RecvHandshakeSuccess(m);
      } else {
        RecvHandshakeError();
      }
    }

    /** The call through the entry's function pointer in `on_msg_recv`; the handlers of publish,
        subscribe and unsubscribe replies do nothing. */
    method RunHandler(func: Handler, m: Incoming)
      requires Valid()
      modifies this`handshakeIndex, this`handshakeTimer, this`phase, this`clientId,
               this`connectInFlight, this`connectTimer
      ensures Valid() && Abs() == Handle(old(Abs()), func, m)
    {
      match func
      case RecvConnect =>
        connectInFlight := false;
        ScheduleConnect();
      case RecvHandshake => RecvHandshakeReply(m);
      case _ =>
    }

    method RemoveMessage(index: nat)
      requires Valid() && index < outbox.count
      modifies this, outbox.Repr
      ensures Valid() && fresh(outbox.Repr - old(outbox.Repr))
      ensures Abs() == Remove(old(Abs()), index)
    {
      hist := hist.(dispatched := hist.dispatched +
                      [Dispatched(outbox.entries[index].serial, outbox.entries[index].handler)]);
      outbox.RemoveOrdered(index);
    }

    /** The part of `on_msg_recv` for messages without data. */
    method RecvReply(m: Incoming)
      requires Valid()
      modifies this, outbox.Repr
      ensures Valid() && fresh(outbox.Repr - old(outbox.Repr))
      ensures Abs() == Reply(old(Abs()), m)
    {
      if m.id.None? {
        return;
      }
      var msgIndex := outbox.FindByMsgId(ParseId(m.id.value));
      if msgIndex == -1 {
        return;
      }
      Answer(msgIndex, m);
    }

    /** The entry's handler runs, and the entry is removed. */
    method Answer(index: nat, m: Incoming)
      requires Valid() && index < outbox.count
      modifies this, outbox.Repr
      ensures Valid() && fresh(outbox.Repr - old(outbox.Repr))
      ensures var s := old(Abs());
        var t := Handle(s, s.outbox[index].handler, m);
        index < |t.outbox| && Abs() == Remove(t, index)
    {
      var func := outbox.funcs[index];
      RunHandler(func, m);
      RemoveMessage(index);
    }

    /** `on_msg_recv`. */
    method OnMsgRecv(m: Incoming)
      requires Valid()
      modifies this, outbox.Repr, table.Repr
      ensures Valid() && fresh(outbox.Repr - old(outbox.Repr)) && fresh(table.Repr - old(table.Repr))
      ensures Abs() == Receive(old(Abs()), m)
    {
      HandleAdvice(m);
      if m.data.Some? {
        RecvEvent(m);
      } else {
        RecvReply(m);
      }
    }

    /** `on_batch_recv`. */
    method OnBatchRecv(messages: seq<Incoming>)
      requires Valid()
      modifies this, outbox.Repr, table.Repr
      ensures Valid() && fresh(outbox.Repr - old(outbox.Repr)) && fresh(table.Repr - old(table.Repr))
      ensures Abs() == BatchRecv(old(Abs()), messages)
    {
      ghost var s := Abs();
      for i := 0 to |messages|
        invariant Valid() && fresh(outbox.Repr - old(outbox.Repr)) && fresh(table.Repr - old(table.Repr))
        invariant Abs() == ReceiveAll(s, messages[..i])
      {
        OnMsgRecv(messages[i]);
        assert messages[..i + 1][..i] == messages[..i];
      }
      assert messages[..|messages|] == messages;
      if outbox.count > 0 {
        ScheduleFlush();
      }
    }

    // -------------------------------------------------------------------------------------------
    // Flushing
    // -------------------------------------------------------------------------------------------

    /** What holds of the queue and the message ids throughout a flush. */
    ghost predicate QueueReady()
      reads this, outbox, outbox.Repr
    {
      outbox.Valid() && outbox.HeldOnce() && this !in outbox.Repr && messageId == IdAt(msgTicks)
    }

    /** Gives an entry its ids and labels. */
    method PutInFlight(index: nat, batch: Word, ghost batchTick: nat)
      requires QueueReady() && index < outbox.count && batch == IdAt(batchTick)
      modifies outbox.Repr, this`messageId, this`msgTicks
      ensures QueueReady() && outbox.Repr == old(outbox.Repr)
      ensures outbox.entries == old(outbox.entries)[index :=
                Stamp(old(outbox.entries)[index], old(msgTicks), batchTick, clientId)]
      ensures msgTicks == old(msgTicks) + 1
    {
      ghost var tick := msgTicks;
      var msgId := NextMessageId();
      outbox.Label(index, msgId, batch, clientId, tick, batchTick);
    }

    /** Room for the text that a flush builds, within 32-bit sizes. */
    static ghost predicate TextFits(t: Transmission, toText: Doc -> string) {
      |TextOf(t, toText)| + 2048 < W32
    }

    /** The updates of `msg_queue_flush_one`. */
    method AssignOne(index: nat) returns (text: string)
      requires Valid() && index < outbox.count && !outbox.entries[index].InFlight()
      modifies this, outbox.Repr
      ensures Valid() && outbox.Repr == old(outbox.Repr)
      ensures var s := old(Abs());
        && Abs() == s.(outbox := s.outbox[index := StampedOne(s, index)], msgTicks := s.msgTicks + 1,
                       batchTicks := s.batchTicks + 1)
        && text == toText(StampedOne(s, index).doc)
    {
      ghost var batchTick := batchTicks;
      var batch := NextBatchId();
      PutInFlight(index, batch, batchTick);
      text := toText(outbox.msgs[index].fields);
    }

    /** `msg_queue_flush_one`. */
    method FlushOneMessage(str: Str, index: nat)
      requires Valid() && index < outbox.count
      requires str.Valid() && str.Contents() == "" && Apart(str.Repr)
      requires TextFits(OneTransmission(Abs(), index), toText)
      modifies this, outbox.Repr, str.Repr
      ensures Valid() && outbox.Repr == old(outbox.Repr) && str.Valid()
      ensures str.Contents() == TextOf(OneTransmission(old(Abs()), index), toText)
      ensures Send(Abs(), OneTransmission(old(Abs()), index)) == FlushOne(old(Abs()), index)
    {
      ghost var s := Abs();
      if outbox.msgIds[index] != INVALID_ID {
        return;
      }
      OneText(s, index, toText);
      var text := AssignOne(index);
      WriteWhole(str, text);
    }

    static method WriteWhole(str: Str, text: string)
      requires str.Valid() && str.Contents() == "" && |text| + 2050 < W32
      modifies str.Repr
      ensures str.Valid() && str.Contents() == ArrayText([text])
    {
      str.Cat("[");
      str.Cat(text);
      str.Cat("]");
    }

    /** Writes one message's text in the middle of a flush. The comma is left out before the first
        one, which is told from the length of what has been written. */
    static method WriteNext(str: Str, ghost body: string, text: string)
      requires str.Valid() && str.Contents() == "[" + body
      requires |body| + |text| + 2050 < W32
      modifies str.Repr
      ensures str.Valid() && str.Contents() == "[" + WithNext(body, text)
      ensures fresh(str.Repr - old(str.Repr))
    {
      var len := str.Len();
      if len > 1 {
        str.Cat(",");
      }
      str.Cat(text);
    }

    /** The queue has been flushed as far as its first `n` entries. */
    ghost predicate FlushedTo(s: State, n: nat)
      reads this, outbox, outbox.Repr
      requires n <= |s.outbox|
    {
      && QueueReady() && clientId == s.clientId
      && outbox.entries == FlushTo(s, n).outbox && msgTicks == FlushTo(s, n).msgTicks
    }

    /** What one turn of the loop in `msg_queue_flush` does to the queue. */
    method FlushLabel(index: nat, batch: Word, ghost s: State) returns (text: Option<string>)
      requires index < |s.outbox| && FlushedTo(s, index) && batch == IdAt(s.batchTicks)
      modifies outbox.Repr, this`messageId, this`msgTicks
      ensures FlushedTo(s, index + 1) && outbox.Repr == old(outbox.Repr)
      ensures text == if s.outbox[index].InFlight() then None else Some(toText(StampedAt(s, index).doc))
    {
      FlushToCounts(s, index);
      FlushToStamps(s, index, index);
      FlushToStamps(s, index + 1, index);
      if outbox.msgIds[index] == INVALID_ID {
        PutInFlight(index, batch, s.batchTicks);
        text := Some(toText(outbox.msgs[index].fields));
      } else {
        text := None;
      }
    }

    /** One turn of the loop in `msg_queue_flush`. */
    method FlushEntry(str: Str, index: nat, batch: Word, ghost s: State)
      requires index < |s.outbox| && FlushedTo(s, index) && batch == IdAt(s.batchTicks)
      requires str.Valid() && this !in str.Repr && str.Repr !! outbox.Repr
      requires str.Contents() == "[" + BodyUpTo(s, index, toText)
      requires NeverEmpty(toText) && TextFits(AllTransmission(s), toText)
      modifies outbox.Repr, this`messageId, this`msgTicks, str.Repr
      ensures FlushedTo(s, index + 1) && outbox.Repr == old(outbox.Repr)
      ensures str.Valid() && fresh(str.Repr - old(str.Repr))
      ensures str.Contents() == "[" + BodyUpTo(s, index + 1, toText)
    {
      var text := FlushLabel(index, batch, s);
      BodyGrows(s, index, toText);
      if text.Some? {
        WriteNext(str, BodyUpTo(s, index, toText), text.value);
      }
    }

    /** The loop of `msg_queue_flush`. */
    method FlushLoop(str: Str, batch: Word, ghost s: State)
      requires FlushedTo(s, 0) && batch == IdAt(s.batchTicks)
      requires str.Valid() && str.Contents() == "[" && this !in str.Repr && str.Repr !! outbox.Repr
      requires NeverEmpty(toText) && TextFits(AllTransmission(s), toText)
      modifies outbox.Repr, this`messageId, this`msgTicks, str.Repr
      ensures FlushedTo(s, |s.outbox|) && outbox.Repr == old(outbox.Repr)
      ensures str.Valid() && fresh(str.Repr - old(str.Repr))
      ensures str.Contents() == "[" + BodyUpTo(s, |s.outbox|, toText)
    {
      hide TextFits, NeverEmpty, FlushTo;
      for index := 0 to outbox.count
        invariant FlushedTo(s, index) && outbox.Repr == old(outbox.Repr)
        invariant str.Valid() && fresh(str.Repr - old(str.Repr))
        invariant str.Contents() == "[" + BodyUpTo(s, index, toText)
      {
        FlushEntry(str, index, batch, s);
      }
    }

    /** `msg_queue_flush` up to the closing bracket. */
    method FlushEntries(str: Str, ghost s: State)
      requires Valid() && NeverEmpty(toText) && s == Abs() && s.outbox != []
      requires str.Valid() && str.Contents() == "" && Apart(str.Repr)
      requires TextFits(AllTransmission(s), toText)
      modifies this, outbox.Repr, str.Repr
      ensures Valid() && outbox.Repr == old(outbox.Repr)
      ensures str.Valid() && fresh(str.Repr - old(str.Repr))
      ensures Abs() == FlushTo(s, |s.outbox|)
      ensures str.Contents() == "[" + BodyUpTo(s, |s.outbox|, toText)
    {
      var batch := OpenBatch(str);
      FlushAllEntries(str, batch, s);
    }

    method FlushAllEntries(str: Str, batch: Word, ghost s: State)
      requires Valid() && Abs() == FlushTo(s, 0) && batch == IdAt(s.batchTicks)
      requires str.Valid() && str.Contents() == "[" && Apart(str.Repr)
      requires NeverEmpty(toText) && TextFits(AllTransmission(s), toText)
      modifies outbox.Repr, this`messageId, this`msgTicks, str.Repr
      ensures Valid() && outbox.Repr == old(outbox.Repr)
      ensures str.Valid() && fresh(str.Repr - old(str.Repr))
      ensures Abs() == FlushTo(s, |s.outbox|)
      ensures str.Contents() == "[" + BodyUpTo(s, |s.outbox|, toText)
    {
      FlushLoop(str, batch, s);
      FlushToCounts(s, |s.outbox|);
    }

    method OpenBatch(str: Str) returns (batch: Word)
      requires Valid() && str.Valid() && str.Contents() == "" && Apart(str.Repr)
      modifies this`batchId, this`batchTicks, str.Repr
      ensures Valid() && Abs() == FlushTo(old(Abs()), 0) && batch == IdAt(old(batchTicks))
      ensures str.Valid() && fresh(str.Repr - old(str.Repr)) && str.Contents() == "["
    {
      str.Cat("[");
      batch := NextBatchId();
    }

    /** `msg_queue_flush`. */
    method FlushQueue(str: Str)
      requires Valid() && NeverEmpty(toText)
      requires str.Valid() && str.Contents() == "" && Apart(str.Repr)
      requires TextFits(AllTransmission(Abs()), toText)
      modifies this, outbox.Repr, str.Repr
      ensures Valid() && outbox.Repr == old(outbox.Repr) && str.Valid()
      ensures str.Contents() == TextOf(AllTransmission(old(Abs())), toText)
      ensures Send(Abs(), AllTransmission(old(Abs()))) == FlushAll(old(Abs()))
    {
      ghost var s := Abs();
      if outbox.count == 0 {
        return;
      }
      FlushEntries(str, s);
      FlushToEnd(s);
      BodyIsText(s, toText);
      str.Cat("]");
    }

    /** The text that the next flush builds, if any, fits. */
    static ghost predicate NextFlushFits(s: State, toText: Doc -> string) {
      var t := s.(flushTimer := false);
      if s.handshakeIndex == -1 then TextFits(AllTransmission(t), toText)
      else 0 <= s.handshakeIndex < |s.outbox| ==> TextFits(OneTransmission(t, s.handshakeIndex), toText)
    }

    /** `transport_send`. */
    method TransportSend(text: string, ghost t: Transmission)
      requires Valid() && text == TextOf(t, toText)
      modifies this`wire, this`hist
      ensures Valid() && Abs() == Send(old(Abs()), t)
    {
      wire := wire + [text];
      hist := hist.(sent := hist.sent + [t]);
    }

    /** The text of the handshake alone while the gate is closed, and of the whole queue otherwise. */
    method BuildText(str: Str) returns (ghost t: Transmission)
      requires Valid() && NeverEmpty(toText) && NextFlushFits(Abs(), toText)
      requires !flushTimer && (handshakeIndex == -1 || 0 <= handshakeIndex < outbox.count)
      requires str.Valid() && str.Contents() == "" && Apart(str.Repr)
      modifies this, outbox.Repr, str.Repr
      ensures Valid() && outbox.Repr == old(outbox.Repr) && str.Valid()
      ensures str.Contents() == TextOf(t, toText)
      ensures Send(Abs(), t) ==
        if old(handshakeIndex) == -1 then FlushAll(old(Abs())) else FlushOne(old(Abs()), old(handshakeIndex))
    {
      if handshakeIndex != -1 {
        t := OneTransmission(Abs(), handshakeIndex);
        FlushOneMessage(str, handshakeIndex);
      } else {
        t := AllTransmission(Abs());
        FlushQueue(str);
      }
    }

    /** Builds the text and hands it to the transport. */
    method FlushNow()
      requires Valid() && NeverEmpty(toText) && NextFlushFits(Abs(), toText)
      requires !flushTimer && (handshakeIndex == -1 || 0 <= handshakeIndex < outbox.count)
      modifies this, outbox.Repr
      ensures Valid() && fresh(outbox.Repr - old(outbox.Repr))
      ensures Abs() ==
        if old(handshakeIndex) == -1 then FlushAll(old(Abs())) else FlushOne(old(Abs()), old(handshakeIndex))
    {
      var str := new Str(4096);
      ghost var t := BuildText(str);
      TransportSend(str.buf[..str.len], t);
    }

    /** `on_ev_timeout_flush`, which stops where the program would go on with a slot past the last entry. */
    method OnEvTimeoutFlush()
      requires Valid() && NeverEmpty(toText) && NextFlushFits(Abs(), toText)
      modifies this, outbox.Repr
      ensures Valid() && fresh(outbox.Repr - old(outbox.Repr))
      ensures Abs() == FlushTimerFires(old(Abs()))
    {
      flushTimer := false;
      if handshakeIndex != -1 && !(0 <= handshakeIndex < outbox.count) {
        hist := hist.(staleRead := true);
      } else {
        FlushNow();
      }
    }

    // -------------------------------------------------------------------------------------------
    // Other events, and runs
    // -------------------------------------------------------------------------------------------

    /** `on_ev_timeout_connect`. */
    method OnEvTimeoutConnect()
      requires Valid()
      modifies this, outbox.Repr
      ensures Valid() && fresh(outbox.Repr - old(outbox.Repr))
      ensures Abs() == ConnectTimerFires(old(Abs()))
    {
      ConnectTimerExpires();
      IssueConnect();
    }

    method ConnectTimerExpires()
      requires Valid()
      modifies this`connectTimer, this`hist
      ensures Valid() && Abs() == ConnectTimerDue(old(Abs()))
    {
      connectTimer := false;
      hist := hist.(parked := hist.parked || reconnect == ReconnectNone);
    }

    /** `on_ev_timeout_handshake`. */
    method OnEvTimeoutHandshake()
      requires Valid()
      modifies this, outbox.Repr
      ensures Valid() && fresh(outbox.Repr - old(outbox.Repr))
      ensures Abs() == HandshakeTimerFires(old(Abs()))
    {
      handshakeTimer := false;
      IssueHandshake();
    }

    /** `on_batch_send_err`. */
    method OnBatchSendErr(batch: Word)
      requires Valid()
      modifies this, outbox.Repr
      ensures Valid() && fresh(outbox.Repr - old(outbox.Repr))
      ensures Abs() == BatchSendErr(old(Abs()), batch)
    {
      outbox.ClearBatch(batch);
      ScheduleFlush();
    }

    /** One turn of the event loop. */
    method Turn(e: Event)
      requires Valid() && NeverEmpty(toText)
      requires e.FlushTimeout? ==> NextFlushFits(Abs(), toText)
      modifies this, outbox.Repr, table.Repr
      ensures Valid() && fresh(outbox.Repr - old(outbox.Repr)) && fresh(table.Repr - old(table.Repr))
      ensures Abs() == Step(old(Abs()), e)
    {
      match e
      case CallApi(call) => CallApi(call);
      case ConnectTimeout =>
        if connectTimer {
          OnEvTimeoutConnect();
        }
      case FlushTimeout =>
        if flushTimer {
          OnEvTimeoutFlush();
        }
      case HandshakeTimeout =>
        if handshakeTimer {
          OnEvTimeoutHandshake();
        }
      case MessagesArrive(messages) => OnBatchRecv(messages);
      case SendFails(batch) => OnBatchSendErr(batch);
    }

    /** The event loop: driven by any sequence of events, the object goes through the states of the
        machine's run. */
    method Dispatch(events: seq<Event>)
      requires Valid() && NeverEmpty(toText)
      requires forall n :: 0 <= n < |events| && events[n].FlushTimeout? ==>
        NextFlushFits(Run(Abs(), events[..n]), toText)
      modifies this, outbox.Repr, table.Repr
      ensures Valid() && fresh(outbox.Repr - old(outbox.Repr)) && fresh(table.Repr - old(table.Repr))
      ensures Abs() == Run(old(Abs()), events)
    {
      hide Step, NextFlushFits;
      ghost var s := Abs();
      assert events[..0] == [];
      for n := 0 to |events|
        invariant Valid() && fresh(outbox.Repr - old(outbox.Repr)) && fresh(table.Repr - old(table.Repr))
        invariant Abs() == Run(s, events[..n])
      {
        Turn(events[n]);
        assert events[..n + 1][..n] == events[..n];
      }
      assert events[..|events|] == events;
    }
  }

  lemma DeliverStarts(s: State, regs: seq<Registration>, m: Incoming)
    requires m.data.Some?
    ensures Deliver(s, regs, m, 0) == s
  {
  }

  lemma DeliverContinues(s: State, regs: seq<Registration>, m: Incoming, n: nat)
    requires m.data.Some? && n < |regs|
    ensures Deliver(s, regs, m, n + 1) ==
      DeliverOne(Deliver(s, regs, m, n), regs[n], m.data.value, m.Reaction(n))
  {
    hide DeliverOne;
  }

  lemma NoRegistrationUnlessNamed(log: seq<Registration>, names: seq<string>, name: string)
    requires forall r :: r in log ==> r.channel in names
    ensures name !in names ==> Matching(log, name) == []
  {
    if name !in names {
      NoRegistrationNoMatch(log, names, name);
    }
  }
}
