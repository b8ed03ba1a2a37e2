/** What the outbox holds: every message pushed and not yet dispatched, once, in push order, each
    with ids that were handed out for it. */
module Ledger {
  import opened Bits
  import opened Ids
  import opened Documents
  import opened Engine
  import opened Runs

  // ---------------------------------------------------------------------------------------------
  // Entries keep what was pushed, and their ids are the ones handed out for them
  // ---------------------------------------------------------------------------------------------

  ghost predicate EntryKept(e: Entry, pushed: seq<Pushed>, msgTicks: nat, batchTicks: nat) {
    && (e.batchId == INVALID_ID <==> e.msgId == INVALID_ID)
    && e.serial < |pushed|
    && pushed[e.serial] == Pushed(Unlabelled(e.doc), e.handler)
    && (e.InFlight() ==>
          && e.msgTick < msgTicks && e.msgId == IdAt(e.msgTick)
          && e.batchTick < batchTicks && e.batchId == IdAt(e.batchTick)
          && CarriesId(e.doc, e.msgId))
  }

  /** No two entries got their message ids at the same point of the sequence. */
  ghost predicate TicksDiffer(es: seq<Entry>) {
    forall i, j :: 0 <= i < j < |es| && es[i].InFlight() && es[j].InFlight() ==>
      es[i].msgTick != es[j].msgTick
  }

  ghost predicate KeptIn(es: seq<Entry>, pushed: seq<Pushed>, msgTicks: nat, batchTicks: nat) {
    && (forall i :: 0 <= i < |es| ==> EntryKept(es[i], pushed, msgTicks, batchTicks))
    && TicksDiffer(es)
  }

  ghost predicate Kept(s: State) {
    KeptIn(s.outbox, s.hist.pushed, s.msgTicks, s.batchTicks)
  }

  lemma PushKeeps(s: State, doc: Doc, handler: Handler)
    requires Kept(s) && Unlabelled(doc) == doc
    ensures Kept(Push(s, doc, handler))
  {
  }

  lemma IssueHandshakeKeeps(s: State)
    requires Kept(s)
    ensures Kept(IssueHandshake(s))
  {
    PushKeeps(s.(phase := Connecting), HandshakeDoc(), RecvHandshake);
  }

  lemma IssueConnectKeeps(s: State)
    requires Kept(s)
    ensures Kept(IssueConnect(s))
  {
    IssueHandshakeKeeps(s);
    PushKeeps(IssueHandshake(s).(connectInFlight := true), ConnectDoc(), RecvConnect);
  }

  lemma CallKeeps(s: State, call: ApiCall)
    requires Kept(s)
    ensures Kept(DoCall(s, call))
  {
    hide IssueConnect, Matching, EntryKept;
    IssueConnectKeeps(Noted(s, call));
    PushKeeps(IssueConnect(Noted(s, call)), DocOf(call), HandlerOf(call));
  }

  lemma StampKeeps(e: Entry, pushed: seq<Pushed>, m: nat, b: nat, m': nat, b': nat, clientId: Option<string>)
    requires EntryKept(e, pushed, m, b) && m < m' && b < b'
    ensures EntryKept(Stamp(e, m, b, clientId), pushed, m', b')
  {
    LabellingKeepsTheRest(e.doc, IdAt(m), clientId);
  }

  /** Counting entries without an id is monotone, and strict past such an entry. */
  lemma {:induction false} UnsentMonotone(es: seq<Entry>, i: nat, j: nat)
    requires i < j <= |es|
    ensures Unsent(es[..i]) <= Unsent(es[..j])
    ensures !es[i].InFlight() ==> Unsent(es[..i]) < Unsent(es[..j])
  {
    assert es[..j][..j - 1] == es[..j - 1];
    if i < j - 1 {
      UnsentMonotone(es, i, j - 1);
    }
  }

  lemma StampedKeeps(s: State, i: nat)
    requires Kept(s) && i < |s.outbox|
    ensures EntryKept(StampedAt(s, i), s.hist.pushed, s.msgTicks + Unsent(s.outbox), s.batchTicks + 1)
  {
    var e := s.outbox[i];
    assert EntryKept(e, s.hist.pushed, s.msgTicks, s.batchTicks);
    if !e.InFlight() {
      assert s.outbox[..|s.outbox|] == s.outbox;
      UnsentMonotone(s.outbox, i, |s.outbox|);
      LabellingKeepsTheRest(e.doc, IdAt(s.msgTicks + Unsent(s.outbox[..i])), s.clientId);
    }
  }

  lemma StampedTicksDiffer(s: State, i: nat, j: nat)
    requires Kept(s) && i < j < |s.outbox|
    ensures StampedAt(s, i).msgTick != StampedAt(s, j).msgTick
  {
    UnsentMonotone(s.outbox, i, j);
    assert EntryKept(s.outbox[i], s.hist.pushed, s.msgTicks, s.batchTicks);
    assert EntryKept(s.outbox[j], s.hist.pushed, s.msgTicks, s.batchTicks);
  }

  lemma FlushAllKeeps(s: State)
    requires Kept(s)
    ensures Kept(FlushAll(s))
  {
    var t := FlushAll(s);
    if s.outbox != [] {
      forall i | 0 <= i < |t.outbox|
        ensures EntryKept(t.outbox[i], t.hist.pushed, t.msgTicks, t.batchTicks)
      {
        StampedKeeps(s, i);
      }
      forall i, j | 0 <= i < j < |t.outbox| ensures t.outbox[i].msgTick != t.outbox[j].msgTick {
        StampedTicksDiffer(s, i, j);
      }
    }
  }

  lemma FlushOneKeeps(s: State, i: nat)
    requires Kept(s) && i < |s.outbox|
    ensures Kept(FlushOne(s, i))
  {
    var e := s.outbox[i];
    assert EntryKept(e, s.hist.pushed, s.msgTicks, s.batchTicks);
    StampKeeps(e, s.hist.pushed, s.msgTicks, s.batchTicks, s.msgTicks + 1, s.batchTicks + 1, s.clientId);
  }

  lemma RemoveKeeps(s: State, i: nat)
    requires Kept(s) && i < |s.outbox|
    ensures Kept(Remove(s, i))
  {
  }

  /** A handler leaves the outbox alone, so the index found before it ran is still right. */
  lemma HandlerLeavesOutbox(s: State, h: Handler, m: Incoming)
    ensures var t := Handle(s, h, m);
      && t.outbox == s.outbox && t.hist == s.hist
      && t.msgTicks == s.msgTicks && t.batchTicks == s.batchTicks && t.subs == s.subs
      && t.flushTimer == s.flushTimer && t.reconnect == s.reconnect
  {
  }

  /** A flush changes the outbox, the id counters and the log of what was sent. */
  lemma FlushFrame(s: State)
    ensures var t := FlushTimerFires(s);
      t == s.(flushTimer := false, outbox := t.outbox, msgTicks := t.msgTicks, batchTicks := t.batchTicks,
              hist := s.hist.(sent := t.hist.sent, staleRead := t.hist.staleRead))
  {
    var u := s.(flushTimer := false);
    if s.handshakeIndex == -1 {
      FlushAllFrame(u);
    } else if 0 <= s.handshakeIndex < |s.outbox| {
      FlushOneFrame(u, s.handshakeIndex);
    }
  }

  lemma FlushAllFrame(s: State)
    ensures var t := FlushAll(s);
      t == s.(outbox := t.outbox, msgTicks := t.msgTicks, batchTicks := t.batchTicks,
              hist := s.hist.(sent := s.hist.sent + [AllTransmission(s)]))
  {
  }

  lemma FlushOneFrame(s: State, i: nat)
    requires i < |s.outbox|
    ensures var t := FlushOne(s, i);
      t == s.(outbox := t.outbox, msgTicks := t.msgTicks, batchTicks := t.batchTicks,
              hist := s.hist.(sent := s.hist.sent + [OneTransmission(s, i)]))
  {
  }

  /** `fs` holds the same messages as `es`, in the same order and with the same handlers. */
  ghost predicate SameMessages(es: seq<Entry>, fs: seq<Entry>) {
    && |es| == |fs|
    && forall i :: 0 <= i < |es| ==> es[i].serial == fs[i].serial && es[i].handler == fs[i].handler
  }

  /** Flushes and send errors change ids and labels only. */
  lemma FlushSameMessages(s: State)
    ensures SameMessages(s.outbox, FlushTimerFires(s).outbox)
  {
    var u := s.(flushTimer := false);
    if s.handshakeIndex == -1 {
      FlushAllSameMessages(u);
    } else if 0 <= s.handshakeIndex < |s.outbox| {
      FlushOneSameMessages(u, s.handshakeIndex);
    }
  }

  lemma FlushAllSameMessages(s: State)
    ensures SameMessages(s.outbox, FlushAll(s).outbox)
  {
  }

  lemma FlushOneSameMessages(s: State, i: nat)
    requires i < |s.outbox|
    ensures SameMessages(s.outbox, FlushOne(s, i).outbox)
  {
  }

  lemma SendErrSameMessages(s: State, batchId: Word)
    ensures SameMessages(s.outbox, BatchSendErr(s, batchId).outbox)
  {
  }

  lemma SendErrFrame(s: State, batchId: Word)
    ensures var t := BatchSendErr(s, batchId);
      t == s.(outbox := t.outbox, flushTimer := true)
  {
  }

  /** A reply does nothing, or runs the handler of the entry it answers and removes that entry. */
  lemma ReplyFrame(s: State, m: Incoming)
    ensures var t := Reply(s, m);
      if m.id.None? || Find(s.outbox, ParseId(m.id.value)) < 0 then t == s
      else
        var i := Find(s.outbox, ParseId(m.id.value));
        var u := Handle(s, s.outbox[i].handler, m);
        && u.outbox == s.outbox && u.hist == s.hist
        && u.msgTicks == s.msgTicks && u.batchTicks == s.batchTicks
        && u.reconnect == s.reconnect && (s.connectTimer ==> u.connectTimer)
        && t == Remove(u, i)
  {
    if m.id.Some? && Find(s.outbox, ParseId(m.id.value)) >= 0 {
      HandlerLeavesOutbox(s, s.outbox[Find(s.outbox, ParseId(m.id.value))].handler, m);
    }
  }

  lemma ReplyKeeps(s: State, m: Incoming)
    requires Kept(s)
    ensures Kept(Reply(s, m))
  {
    if m.id.Some? && Find(s.outbox, ParseId(m.id.value)) >= 0 {
      var i := Find(s.outbox, ParseId(m.id.value));
      HandlerLeavesOutbox(s, s.outbox[i].handler, m);
      RemoveKeeps(Handle(s, s.outbox[i].handler, m), i);
    }
  }

  lemma SendErrKeeps(s: State, batchId: Word)
    requires Kept(s)
    ensures Kept(BatchSendErr(s, batchId))
  {
  }

  lemma FlushKeeps(s: State)
    requires Kept(s)
    ensures Kept(FlushTimerFires(s))
  {
    var t := s.(flushTimer := false);
    if s.handshakeIndex == -1 {
      FlushAllKeeps(t);
    } else if 0 <= s.handshakeIndex < |s.outbox| {
      FlushOneKeeps(t, s.handshakeIndex);
    }
  }

  lemma ConnectKeeps(s: State)
    requires Kept(s)
    ensures Kept(ConnectTimerFires(s))
  {
    IssueConnectKeeps(ConnectTimerDue(s));
  }

  lemma HandshakeKeeps(s: State)
    requires Kept(s)
    ensures Kept(HandshakeTimerFires(s))
  {
    IssueHandshakeKeeps(s.(handshakeTimer := false));
  }

  lemma QuietKeeps(s: State, a: Action)
    requires Kept(s) && Quiet(a)
    ensures Kept(Act(s, a))
  {
    QuietFrame(s, a);
  }

  lemma ActKeeps(s: State, a: Action)
    requires Kept(s)
    ensures Kept(Act(s, a))
  {
    hide Kept, DoCall, Reply, ConnectTimerFires, FlushTimerFires, HandshakeTimerFires, BatchSendErr;
    match a
    case Calling(call) => CallKeeps(s, call);
    case Replying(m) => ReplyKeeps(s, m);
    case ConnectFiring => ConnectKeeps(s);
    case FlushFiring => FlushKeeps(s);
    case HandshakeFiring => HandshakeKeeps(s);
    case Failing(batchId) => SendErrKeeps(s, batchId);
    case _ => QuietKeeps(s, a);
  }

  /** After every run: an entry has a batch id exactly when it has a message id; both are the ids
      that were handed out for it; the JSON object itself carries the text of the message id, also
      after a retry has overwritten an older one; and without its labels it is the message that
      was pushed, with the handler that was pushed with it. */
  lemma {:induction false} EntriesAreKept(intervalMs: int, es: seq<Event>)
    ensures Kept(Run(Init(intervalMs), es))
  {
    forall s, a | Kept(s) ensures Kept(Act(s, a)) {
      ActKeeps(s, a);
    }
    Everywhere(Kept, Anything, Init(intervalMs), es);
  }
}
