/** What the client does, as a state machine on values. The classes in `Outbox`, `Channels` and
    `Client` are proved to make exactly these steps; the theorems are about runs of this machine. */
module Engine {
  import opened Bits
  import opened Ids
  import opened Documents

  datatype Handler = RecvConnect | RecvHandshake | RecvPublish | RecvSubscribe | RecvUnsubscribe

  datatype Reconnect = ReconnectHandshake | ReconnectNone | ReconnectRetry

  datatype Phase = Unconnected | Connecting | Connected

  /** An outbox entry: a message, its two ids and the handler for its reply. The last three fields
      are history that the program does not store: the entry's place in the order of all pushes,
      and how many message and batch ids had been handed out when it got its own. */
  datatype Entry = Entry(
    doc: Doc, batchId: Word, msgId: Word, handler: Handler,
    serial: nat, msgTick: nat, batchTick: nat)
  {
    predicate InFlight() {
      msgId != INVALID_ID
    }
  }

  /** A subscription callback registered under a channel name. */
  datatype Registration = Registration(channel: string, callback: int, context: int)

  datatype SentItem = SentItem(serial: nat, doc: Doc)

  /** A text given to the transport: empty, or the JSON array of some messages. */
  datatype Transmission = Blank | Batch(batchTick: nat, items: seq<SentItem>)

  datatype Pushed = Pushed(doc: Doc, handler: Handler)

  datatype Dispatched = Dispatched(serial: nat, handler: Handler)

  datatype Call = Call(callback: int, context: int, data: string)

  /** What has happened so far. `sent` and `calls` are the client's effects on the outside, and
      `registered` lists every subscription that the application has asked for. The
      flags record that something has happened at least once:
      `overlapped`, a handshake was queued while a message of another kind was in flight;
      `overrun`, a subscription was written past the end of its channel's array;
      `staleRead`, a flush used an outbox slot past the last entry.
      `parked` says that the connect timer has fired under reconnect advice `none` since the last
      connect was queued. */
  datatype History = History(
    pushed: seq<Pushed>, dispatched: seq<Dispatched>, sent: seq<Transmission>, calls: seq<Call>,
    registered: seq<Registration>,
    overlapped: bool, overrun: bool, staleRead: bool, parked: bool)

  /** The client. The id counters are represented by how many ids they have handed out. */
  datatype State = State(
    phase: Phase, reconnect: Reconnect, intervalMs: int, clientId: Option<string>,
    msgTicks: nat, batchTicks: nat,
    connectTimer: bool, flushTimer: bool, handshakeTimer: bool,
    subs: seq<Registration>,
    outbox: seq<Entry>, handshakeIndex: int, connectInFlight: bool,
    hist: History)

  /** `bayeux_client_create`. */
  function Init(intervalMs: int): State {
    State(Unconnected, ReconnectRetry, intervalMs, None, 0, 0, false, false, false, [], [], -1, false,
          History([], [], [], [], [], false, false, false, false))
  }

  // ---------------------------------------------------------------------------------------------
  // Outbox
  // ---------------------------------------------------------------------------------------------

  function NewEntry(doc: Doc, handler: Handler, serial: nat): Entry {
    Entry(doc, INVALID_ID, INVALID_ID, handler, serial, 0, 0)
  }

  /** `msg_queue_push`. */
  function Push(s: State, doc: Doc, handler: Handler): State {
    s.(outbox := s.outbox + [NewEntry(doc, handler, |s.hist.pushed|)],
       hist := s.hist.(pushed := s.hist.pushed + [Pushed(doc, handler)]))
  }

  /** The index of the first entry with a message id, or -1: `msg_queue_find_by_msg_id`. */
  function Find(es: seq<Entry>, id: Word): (i: int)
    ensures -1 <= i < |es|
    ensures i >= 0 ==> es[i].msgId == id && forall j :: 0 <= j < i ==> es[j].msgId != id
    ensures i < 0 ==> forall j :: 0 <= j < |es| ==> es[j].msgId != id
  {
    if es == [] then -1
    else
      var i := Find(es[..|es| - 1], id);
      if i >= 0 then i else if es[|es| - 1].msgId == id then |es| - 1 else -1
  }

  function RemoveAt<T>(s: seq<T>, i: nat): seq<T>
    requires i < |s|
  {
    s[..i] + s[i + 1..]
  }

  /** How many entries have no message id. */
  function Unsent(es: seq<Entry>): (n: nat)
    ensures n <= |es|
  {
    if es == [] then 0
    else Unsent(es[..|es| - 1]) + if es[|es| - 1].InFlight() then 0 else 1
  }

  /** An entry given its ids and labels for sending. */
  function Stamp(e: Entry, msgTick: nat, batchTick: nat, clientId: Option<string>): Entry {
    Entry(Labelled(e.doc, IdAt(msgTick), clientId), IdAt(batchTick), IdAt(msgTick), e.handler,
          e.serial, msgTick, batchTick)
  }

  /** Entry `i` after a flush of the whole queue: those without an id get consecutive new ones. */
  function StampedAt(s: State, i: nat): Entry
    requires i < |s.outbox|
  {
    var e := s.outbox[i];
    if e.InFlight() then e else Stamp(e, s.msgTicks + Unsent(s.outbox[..i]), s.batchTicks, s.clientId)
  }

  function Stamped(s: State): (es: seq<Entry>)
    ensures |es| == |s.outbox|
  {
    seq(|s.outbox|, i requires 0 <= i < |s.outbox| => StampedAt(s, i))
  }

  /** The messages that a flush of the first `n` entries emits. */
  function ItemsUpTo(s: State, n: nat): seq<SentItem>
    requires n <= |s.outbox|
  {
    if n == 0 then []
    else if s.outbox[n - 1].InFlight() then ItemsUpTo(s, n - 1)
    else ItemsUpTo(s, n - 1) + [SentItem(s.outbox[n - 1].serial, StampedAt(s, n - 1).doc)]
  }

  function Send(s: State, t: Transmission): State {
    s.(hist := s.hist.(sent := s.hist.sent + [t]))
  }

  /** The text that `msg_queue_flush` builds. */
  function AllTransmission(s: State): Transmission {
    if s.outbox == [] then Blank else Batch(s.batchTicks, ItemsUpTo(s, |s.outbox|))
  }

  /** `msg_queue_flush`, and sending the result. */
  function FlushAll(s: State): State {
    var t := Send(s, AllTransmission(s));
    if s.outbox == [] then t
    else
      t.(outbox := Stamped(s), msgTicks := s.msgTicks + Unsent(s.outbox), batchTicks := s.batchTicks + 1)
  }

  function StampedOne(s: State, i: nat): Entry
    requires i < |s.outbox|
  {
    Stamp(s.outbox[i], s.msgTicks, s.batchTicks, s.clientId)
  }

  /** The text that `msg_queue_flush_one` builds. */
  function OneTransmission(s: State, i: nat): Transmission
    requires i < |s.outbox|
  {
    if s.outbox[i].InFlight() then Blank
    else Batch(s.batchTicks, [SentItem(s.outbox[i].serial, StampedOne(s, i).doc)])
  }

  /** `msg_queue_flush_one`, and sending the result. */
  function FlushOne(s: State, i: nat): State
    requires i < |s.outbox|
  {
    var t := Send(s, OneTransmission(s, i));
    if s.outbox[i].InFlight() then t
    else
      t.(outbox := s.outbox[i := StampedOne(s, i)], msgTicks := s.msgTicks + 1,
         batchTicks := s.batchTicks + 1)
  }

  // ---------------------------------------------------------------------------------------------
  // Requests
  // ---------------------------------------------------------------------------------------------

  /** `schedule_flush`. */
  function ScheduleFlush(s: State): State {
    s.(flushTimer := true)
  }

  /** `schedule_connect`. */
  function ScheduleConnect(s: State): State {
    s.(connectTimer := true)
  }

  /** Some message in flight is not a handshake. */
  ghost predicate OtherInFlight(es: seq<Entry>) {
    exists i :: 0 <= i < |es| && es[i].InFlight() && es[i].handler != RecvHandshake
  }

  /** `issue_handshake`. */
  ghost function IssueHandshake(s: State): State {
    if s.phase != Unconnected || s.reconnect == ReconnectNone then s
    else
      var t := Push(s.(phase := Connecting), HandshakeDoc(), RecvHandshake);
      ScheduleFlush(t.(handshakeIndex := |s.outbox|,
                       hist := t.hist.(overlapped := s.hist.overlapped || OtherInFlight(s.outbox))))
  }

  /** `issue_connect`. */
  ghost function IssueConnect(s: State): State {
    var t := IssueHandshake(s);
    if t.reconnect == ReconnectNone || t.connectInFlight then t
    else
      var u := Push(t.(connectInFlight := true), ConnectDoc(), RecvConnect);
      ScheduleFlush(u.(hist := u.hist.(parked := false)))
  }

  /** The registrations under one name, in order. */
  function Matching(subs: seq<Registration>, name: string): seq<Registration> {
    if subs == [] then []
    else
      var ms := Matching(subs[..|subs| - 1], name);
      if subs[|subs| - 1].channel == name then ms + [subs[|subs| - 1]] else ms
  }

  /** The most subscriptions that a channel's array ever has room for. */
  const CHANNEL_LIMIT: nat := 16

  /** `channels_subscribe`. The array of a channel grows from 4 to 16 places and then no further; a
      write past its end is recorded and otherwise has no effect here. */
  function Register(s: State, r: Registration): State {
    var h := s.hist.(registered := s.hist.registered + [r]);
    if |Matching(s.subs, r.channel)| >= CHANNEL_LIMIT then s.(hist := h.(overrun := true))
    else s.(subs := s.subs + [r], hist := h)
  }

  /** The message that an API call queues. */
  function DocOf(call: ApiCall): (doc: Doc)
    ensures Unlabelled(doc) == doc
  {
    match call
    case Publish(channel, data) => PublishDoc(channel, data)
    case Subscribe(channel, _, _) => SubscribeDoc(channel)
    case Unsubscribe(channel) => UnsubscribeDoc(channel)
  }

  function HandlerOf(call: ApiCall): (h: Handler)
    ensures h != RecvConnect && h != RecvHandshake
  {
    match call
    case Publish(_, _) => RecvPublish
    case Subscribe(_, _, _) => RecvSubscribe
    case Unsubscribe(_) => RecvUnsubscribe
  }

  /** A subscribe call first enters the callback in the channel table. */
  function Noted(s: State, call: ApiCall): State {
    match call
    case Subscribe(channel, callback, context) => Register(s, Registration(channel, callback, context))
    case _ => s
  }

  /** `bayeux_client_publish`, `bayeux_client_subscribe` and `bayeux_client_unsubscribe`. */
  ghost function DoCall(s: State, call: ApiCall): State {
    ScheduleFlush(Push(IssueConnect(Noted(s, call)), DocOf(call), HandlerOf(call)))
  }

  ghost function DoCalls(s: State, calls: seq<ApiCall>): State {
    if calls == [] then s else DoCall(DoCalls(s, calls[..|calls| - 1]), calls[|calls| - 1])
  }

  // ---------------------------------------------------------------------------------------------
  // Replies and events
  // ---------------------------------------------------------------------------------------------

  /** The reconnect strings of the protocol (section 3.6 of the Bayeux Protocol 1.0). */
  function ReconnectOf(text: string): Option<Reconnect> {
    if text == "handshake" then Some(ReconnectHandshake)
    else if text == "none" then Some(ReconnectNone)
    else if text == "retry" then Some(ReconnectRetry)
    else None
  }

  function TakeAdvice(s: State, m: Incoming): State {
    if m.advice.None? then s
    else
      var a := m.advice.value;
      var r := if a.reconnect.Some? then ReconnectOf(a.reconnect.value) else None;
      s.(reconnect := if r.Some? then r.value else s.reconnect,
         intervalMs := if a.interval.Some? then a.interval.value else s.intervalMs)
  }

  /** `handle_advice`. */
  function HandleAdvice(s: State, m: Incoming): State {
    var t := TakeAdvice(s, m);
    if t.reconnect == ReconnectHandshake then ScheduleConnect(t.(phase := Unconnected)) else t
  }

  /** The callback is called, then the application calls the API from inside it. */
  ghost function DeliverOne(s: State, r: Registration, data: string, calls: seq<ApiCall>): State {
    DoCalls(CallBack(s, Call(r.callback, r.context, data)), calls)
  }

  function CallBack(s: State, call: Call): State {
    s.(hist := s.hist.(calls := s.hist.calls + [call]))
  }

  /** The first `n` of the callbacks for an event. */
  ghost function Deliver(s: State, regs: seq<Registration>, m: Incoming, n: nat): State
    requires n <= |regs| && m.data.Some?
  {
    if n == 0 then s
    else DeliverOne(Deliver(s, regs, m, n - 1), regs[n - 1], m.data.value, m.Reaction(n - 1))
  }

  /** `recv_event` and `channel_deliver`. */
  ghost function RecvEvent(s: State, m: Incoming): State
    requires m.data.Some?
  {
    if m.channel.None? then s
    else
      var regs := Matching(s.subs, m.channel.value);
      Deliver(s, regs, m, |regs|)
  }

  /** `recv_handshake_error`. */
  function HandshakeFailed(s: State): State {
    s.(handshakeTimer := true, phase := Unconnected)
  }

  /** `recv_handshake` and `recv_handshake_success`. */
  function HandshakeReply(s: State, m: Incoming): State {
    var t := s.(handshakeIndex := -1);
    if m.successful.None? then t
    else if !m.successful.value then HandshakeFailed(t)
    else if m.channel != Some(HANDSHAKE_CHANNEL) then HandshakeFailed(t)
    else if m.clientId.None? then HandshakeFailed(t)
    else t.(clientId := m.clientId, phase := Connected)
  }

  /** The reply handlers. They leave the outbox alone, so an index found before still holds. */
  function Handle(s: State, h: Handler, m: Incoming): (t: State)
    ensures t.outbox == s.outbox && t.hist == s.hist
  {
    match h
    case RecvConnect => ScheduleConnect(s.(connectInFlight := false))
    case RecvHandshake => HandshakeReply(s, m)
    case _ => s
  }

  /** `msg_queue_remove_ordered`. */
  function Remove(s: State, i: nat): State
    requires i < |s.outbox|
  {
    s.(outbox := RemoveAt(s.outbox, i),
       hist := s.hist.(dispatched := s.hist.dispatched +
                         [Dispatched(s.outbox[i].serial, s.outbox[i].handler)]))
  }

  /** The part of `on_msg_recv` for messages without data: find the entry that is answered, run its
      handler and remove it. */
  function Reply(s: State, m: Incoming): State {
    if m.id.None? then s
    else
      var i := Find(s.outbox, ParseId(m.id.value));
      if i < 0 then s else Remove(Handle(s, s.outbox[i].handler, m), i)
  }

  /** `on_msg_recv`. */
  ghost function Receive(s: State, m: Incoming): State {
    var t := HandleAdvice(s, m);
    if m.data.Some? then RecvEvent(t, m) else Reply(t, m)
  }

  ghost function ReceiveAll(s: State, ms: seq<Incoming>): State {
    if ms == [] then s else Receive(ReceiveAll(s, ms[..|ms| - 1]), ms[|ms| - 1])
  }

  function WakeIfWaiting(s: State): State {
    if |s.outbox| > 0 then ScheduleFlush(s) else s
  }

  /** `on_batch_recv`. */
  ghost function BatchRecv(s: State, ms: seq<Incoming>): State {
    WakeIfWaiting(ReceiveAll(s, ms))
  }

  // ---------------------------------------------------------------------------------------------
  // Timers and transport errors
  // ---------------------------------------------------------------------------------------------

  /** The connect timer is no longer pending. */
  function ConnectTimerDue(s: State): State {
    s.(connectTimer := false,
       hist := s.hist.(parked := s.hist.parked || s.reconnect == ReconnectNone))
  }

  /** `on_ev_timeout_connect`. */
  ghost function ConnectTimerFires(s: State): State {
    IssueConnect(ConnectTimerDue(s))
  }

  /** `on_ev_timeout_flush`. At an index past the last entry the program goes on with whatever an earlier
      removal left in that slot; here the flag is raised and nothing is sent. */
  function FlushTimerFires(s: State): State {
    var t := s.(flushTimer := false);
    if s.handshakeIndex == -1 then FlushAll(t)
    else if 0 <= s.handshakeIndex < |s.outbox| then FlushOne(t, s.handshakeIndex)
    else t.(hist := t.hist.(staleRead := true))
  }

  /** `on_ev_timeout_handshake`. */
  ghost function HandshakeTimerFires(s: State): State {
    IssueHandshake(s.(handshakeTimer := false))
  }

  function Unassign(e: Entry, batchId: Word): Entry {
    if e.batchId == batchId then e.(batchId := INVALID_ID, msgId := INVALID_ID) else e
  }

  /** `on_batch_send_err`. */
  function BatchSendErr(s: State, batchId: Word): State {
    ScheduleFlush(s.(outbox :=
      seq(|s.outbox|, i requires 0 <= i < |s.outbox| => Unassign(s.outbox[i], batchId))))
  }

  // ---------------------------------------------------------------------------------------------
  // Runs
  // ---------------------------------------------------------------------------------------------

  /** What can happen to a client between two turns of the event loop. */
  datatype Event =
    | CallApi(call: ApiCall)
    | ConnectTimeout
    | FlushTimeout
    | HandshakeTimeout
    | MessagesArrive(messages: seq<Incoming>)
    | SendFails(batchId: Word)

  /** A timer that is not pending does not fire. */
  ghost function Step(s: State, e: Event): State {
    match e
    case CallApi(call) => DoCall(s, call)
    case ConnectTimeout => if s.connectTimer then ConnectTimerFires(s) else s
    case FlushTimeout => if s.flushTimer then FlushTimerFires(s) else s
    case HandshakeTimeout => if s.handshakeTimer then HandshakeTimerFires(s) else s
    case MessagesArrive(messages) => BatchRecv(s, messages)
    case SendFails(batchId) => BatchSendErr(s, batchId)
  }

  ghost function Run(s: State, es: seq<Event>): State {
    if es == [] then s else Step(Run(s, es[..|es| - 1]), es[|es| - 1])
  }
}
