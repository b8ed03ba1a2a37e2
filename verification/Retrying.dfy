/** Flushes, retries and acknowledgements: what is sent, when it is sent again, and that a complete
    exchange with the server leaves nothing behind. */
module Retrying {
  import opened Bits
  import opened Ids
  import opened Documents
  import opened Engine
  import opened Runs
  import opened Ledger
  import opened Conservation
  import opened Correlation

  // ---------------------------------------------------------------------------------------------
  // A flush emits what is waiting, once, in order
  // ---------------------------------------------------------------------------------------------

  /** The serials of the entries without an id, in order. */
  function Waiting(es: seq<Entry>): seq<nat> {
    if es == [] then []
    else
      var e := es[|es| - 1];
      Waiting(es[..|es| - 1]) + if e.InFlight() then [] else [e.serial]
  }

  function ItemSerials(items: seq<SentItem>): (ks: seq<nat>)
    ensures |ks| == |items|
  {
    seq(|items|, k requires 0 <= k < |items| => items[k].serial)
  }

  lemma {:induction false} ItemsAreWaiting(s: State, n: nat)
    requires n <= |s.outbox|
    ensures ItemSerials(ItemsUpTo(s, n)) == Waiting(s.outbox[..n])
  {
    if n > 0 {
      ItemsAreWaiting(s, n - 1);
      assert s.outbox[..n][..n - 1] == s.outbox[..n - 1];
      if !s.outbox[n - 1].InFlight() {
        assert ItemSerials(ItemsUpTo(s, n)) == ItemSerials(ItemsUpTo(s, n - 1)) + [s.outbox[n - 1].serial];
      }
    }
  }

  /** The entries that a failed batch puts back, together with those never sent, in queue order. */
  function FailedOrWaiting(es: seq<Entry>, batchId: Word): seq<nat> {
    if es == [] then []
    else
      var e := es[|es| - 1];
      FailedOrWaiting(es[..|es| - 1], batchId) +
        if e.batchId == batchId || !e.InFlight() then [e.serial] else []
  }

  lemma {:induction false} FailureWaits(es: seq<Entry>, fs: seq<Entry>, batchId: Word)
    requires |es| == |fs| && forall i :: 0 <= i < |es| ==> fs[i] == Unassign(es[i], batchId)
    ensures Waiting(fs) == FailedOrWaiting(es, batchId)
  {
    if es != [] {
      FailureWaits(es[..|es| - 1], fs[..|fs| - 1], batchId);
    }
  }

  /** An entry sent again has ids handed out after everything so far, and carries them. */
  ghost predicate Fresh(s: State, was: Entry, now: Entry) {
    && now.serial == was.serial && now.handler == was.handler
    && now.msgTick >= s.msgTicks && now.msgId == IdAt(now.msgTick)
    && now.batchTick == s.batchTicks && now.batchId == IdAt(s.batchTicks)
    && CarriesId(now.doc, now.msgId)
    && Unlabelled(now.doc) == Unlabelled(was.doc)
    && (s.clientId.Some? ==> "clientId" in now.doc && now.doc["clientId"] == Text(s.clientId.value))
  }

  ghost predicate StoredSomewhere(item: SentItem, es: seq<Entry>) {
    exists e :: e in es && item == SentItem(e.serial, e.doc)
  }

  /** Every message sent is sent with the labels that its entry then has. */
  ghost predicate SentAsStored(items: seq<SentItem>, es: seq<Entry>) {
    forall k :: 0 <= k < |items| ==> StoredSomewhere(items[k], es)
  }

  lemma ItemsAreAsStored(s: State)
    ensures SentAsStored(ItemsUpTo(s, |s.outbox|), Stamped(s))
  {
    hide ItemsUpTo;
    var items, es := ItemsUpTo(s, |s.outbox|), Stamped(s);
    forall k | 0 <= k < |items| ensures StoredSomewhere(items[k], es) {
      ItemsComeFromWaiting(s, |s.outbox|, k);
      var i :| 0 <= i < |s.outbox| && !s.outbox[i].InFlight()
               && items[k] == SentItem(s.outbox[i].serial, StampedAt(s, i).doc);
      assert es[i] == StampedAt(s, i);
      assert es[i].serial == s.outbox[i].serial;
    }
  }

  /** With the gate open, a failed batch followed by a flush sends exactly the surviving entries of
      that batch and those never sent, in queue order, each with a fresh id under one new batch id,
      and leaves every other entry in flight as it is. */
  lemma RetryIsExact(s: State, batchId: Word)
    requires s.handshakeIndex == -1 && s.outbox != []
    ensures var t := FlushTimerFires(BatchSendErr(s, batchId));
      && (exists items :: t.hist.sent == s.hist.sent + [Batch(s.batchTicks, items)]
                       && ItemSerials(items) == FailedOrWaiting(s.outbox, batchId)
                       && SentAsStored(items, t.outbox))
      && t.batchTicks == s.batchTicks + 1
      && |t.outbox| == |s.outbox|
      && forall i :: 0 <= i < |s.outbox| ==>
           if s.outbox[i].batchId == batchId || !s.outbox[i].InFlight()
           then Fresh(s, s.outbox[i], t.outbox[i]) else t.outbox[i] == s.outbox[i]
  {
    var u := BatchSendErr(s, batchId).(flushTimer := false);
    var t := FlushTimerFires(BatchSendErr(s, batchId));
    var items := ItemsUpTo(u, |u.outbox|);
    ItemsAreWaiting(u, |u.outbox|);
    ItemsAreAsStored(u);
    assert u.outbox[..|u.outbox|] == u.outbox;
    FailureWaits(s.outbox, u.outbox, batchId);
    assert t.hist.sent == s.hist.sent + [Batch(s.batchTicks, items)];
    forall i | 0 <= i < |s.outbox|
      ensures if s.outbox[i].batchId == batchId || !s.outbox[i].InFlight()
              then Fresh(s, s.outbox[i], t.outbox[i]) else t.outbox[i] == s.outbox[i]
    {
      RetriedEntry(s, batchId, u, i);
    }
  }

  lemma RetriedEntry(s: State, batchId: Word, u: State, i: nat)
    requires i < |s.outbox| == |u.outbox| && u.outbox[i] == Unassign(s.outbox[i], batchId)
    requires u.msgTicks == s.msgTicks && u.batchTicks == s.batchTicks && u.clientId == s.clientId
    ensures if s.outbox[i].batchId == batchId || !s.outbox[i].InFlight()
            then Fresh(s, s.outbox[i], StampedAt(u, i)) else StampedAt(u, i) == s.outbox[i]
  {
    LabellingKeepsTheRest(s.outbox[i].doc, IdAt(u.msgTicks + Unsent(u.outbox[..i])), u.clientId);
  }

  // ---------------------------------------------------------------------------------------------
  // Nothing is sent again before its batch has failed
  // ---------------------------------------------------------------------------------------------

  ghost predicate Emits(t: Transmission, serial: nat) {
    t.Batch? && exists k :: 0 <= k < |t.items| && t.items[k].serial == serial
  }

  /** Entry `e` is still as it was, or has been removed, and has not been sent since `from`. */
  ghost predicate Undisturbed(s: State, e: Entry, from: nat) {
    && e.serial < |s.hist.pushed|
    && (forall i :: 0 <= i < |s.outbox| && s.outbox[i].serial == e.serial ==> s.outbox[i] == e)
    && (forall k :: from <= k < |s.hist.sent| ==> !Emits(s.hist.sent[k], e.serial))
  }

  predicate NotFailing(a: Action, batchId: Word) {
    a.Failing? ==> a.batchId != batchId
  }

  lemma {:induction false} ItemsComeFromWaiting(s: State, n: nat, k: nat)
    requires n <= |s.outbox| && k < |ItemsUpTo(s, n)|
    ensures exists i :: 0 <= i < n && !s.outbox[i].InFlight()
                     && ItemsUpTo(s, n)[k] == SentItem(s.outbox[i].serial, StampedAt(s, i).doc)
  {
    if k < |ItemsUpTo(s, n - 1)| {
      ItemsComeFromWaiting(s, n - 1, k);
    } else {
      assert !s.outbox[n - 1].InFlight();
    }
  }

  lemma FlushAllUndisturbed(s: State, e: Entry, from: nat)
    requires Undisturbed(s, e, from) && e.InFlight()
    ensures Undisturbed(FlushAll(s), e, from)
  {
    FlushAllFrame(s);
    if s.outbox != [] {
      forall k | 0 <= k < |ItemsUpTo(s, |s.outbox|)| ensures ItemsUpTo(s, |s.outbox|)[k].serial != e.serial {
        ItemsComeFromWaiting(s, |s.outbox|, k);
      }
      assert !Emits(AllTransmission(s), e.serial);
      FlushAllLeaves(s, e);
    }
  }

  lemma FlushAllLeaves(s: State, e: Entry)
    requires e.InFlight()
    requires forall j :: 0 <= j < |s.outbox| && s.outbox[j].serial == e.serial ==> s.outbox[j] == e
    ensures forall j :: 0 <= j < |Stamped(s)| && Stamped(s)[j].serial == e.serial ==> Stamped(s)[j] == e
  {
    forall j | 0 <= j < |Stamped(s)| && Stamped(s)[j].serial == e.serial ensures Stamped(s)[j] == e {
      assert Stamped(s)[j] == StampedAt(s, j);
    }
  }

  lemma FlushOneUndisturbed(s: State, i: nat, e: Entry, from: nat)
    requires Undisturbed(s, e, from) && e.InFlight() && i < |s.outbox|
    ensures Undisturbed(FlushOne(s, i), e, from)
  {
    FlushOneFrame(s, i);
    assert !Emits(OneTransmission(s, i), e.serial);
  }

  lemma FlushUndisturbed(s: State, e: Entry, from: nat)
    requires Undisturbed(s, e, from) && e.InFlight()
    ensures Undisturbed(FlushTimerFires(s), e, from)
  {
    if s.handshakeIndex == -1 {
      FlushAllUndisturbed(s.(flushTimer := false), e, from);
    } else if 0 <= s.handshakeIndex < |s.outbox| {
      FlushOneUndisturbed(s.(flushTimer := false), s.handshakeIndex, e, from);
    }
  }

  lemma PushUndisturbed(s: State, e: Entry, from: nat, doc: Doc, h: Handler)
    requires Undisturbed(s, e, from)
    ensures Undisturbed(Push(s, doc, h), e, from)
  {
  }

  lemma IssueHandshakeUndisturbed(s: State, e: Entry, from: nat)
    requires Undisturbed(s, e, from)
    ensures Undisturbed(IssueHandshake(s), e, from)
  {
    PushUndisturbed(s.(phase := Connecting), e, from, HandshakeDoc(), RecvHandshake);
  }

  lemma IssueUndisturbed(s: State, e: Entry, from: nat)
    requires Undisturbed(s, e, from)
    ensures Undisturbed(IssueConnect(s), e, from)
  {
    IssueHandshakeUndisturbed(s, e, from);
    PushUndisturbed(IssueHandshake(s).(connectInFlight := true), e, from, ConnectDoc(), RecvConnect);
  }

  lemma NotedUndisturbed(s: State, call: ApiCall, e: Entry, from: nat)
    requires Undisturbed(s, e, from)
    ensures Undisturbed(Noted(s, call), e, from)
  {
    hide Emits, Matching;
  }

  lemma ScheduleFlushUndisturbed(s: State, e: Entry, from: nat)
    requires Undisturbed(s, e, from)
    ensures Undisturbed(ScheduleFlush(s), e, from)
  {
  }

  lemma CallUndisturbed(s: State, call: ApiCall, e: Entry, from: nat)
    requires Undisturbed(s, e, from)
    ensures Undisturbed(DoCall(s, call), e, from)
  {
    hide IssueConnect, Noted, Push, ScheduleFlush, Undisturbed;
    NotedUndisturbed(s, call, e, from);
    var t := IssueConnect(Noted(s, call));
    IssueUndisturbed(Noted(s, call), e, from);
    PushUndisturbed(t, e, from, DocOf(call), HandlerOf(call));
    ScheduleFlushUndisturbed(Push(t, DocOf(call), HandlerOf(call)), e, from);
  }

  lemma ReplyUndisturbed(s: State, m: Incoming, e: Entry, from: nat)
    requires Undisturbed(s, e, from)
    ensures Undisturbed(Reply(s, m), e, from)
  {
    ReplyFrame(s, m);
  }

  lemma ConnectUndisturbed(s: State, e: Entry, from: nat)
    requires Undisturbed(s, e, from)
    ensures Undisturbed(ConnectTimerFires(s), e, from)
  {
    IssueUndisturbed(ConnectTimerDue(s), e, from);
  }

  lemma HandshakeUndisturbed(s: State, e: Entry, from: nat)
    requires Undisturbed(s, e, from)
    ensures Undisturbed(HandshakeTimerFires(s), e, from)
  {
    IssueHandshakeUndisturbed(s.(handshakeTimer := false), e, from);
  }

  lemma SendErrUndisturbed(s: State, batchId: Word, e: Entry, from: nat)
    requires Undisturbed(s, e, from) && batchId != e.batchId
    ensures Undisturbed(BatchSendErr(s, batchId), e, from)
  {
    SendErrFrame(s, batchId);
  }

  lemma QuietUndisturbed(s: State, a: Action, e: Entry, from: nat)
    requires Undisturbed(s, e, from) && Quiet(a)
    ensures Undisturbed(Act(s, a), e, from)
  {
    QuietFrame(s, a);
  }

  lemma ActUndisturbed(s: State, a: Action, e: Entry, from: nat)
    requires Undisturbed(s, e, from) && e.InFlight() && NotFailing(a, e.batchId)
    ensures Undisturbed(Act(s, a), e, from)
  {
    hide Undisturbed, DoCall, Reply, ConnectTimerFires, FlushTimerFires, HandshakeTimerFires, BatchSendErr;
    match a
    case Calling(call) => CallUndisturbed(s, call, e, from);
    case Replying(m) => ReplyUndisturbed(s, m, e, from);
    case ConnectFiring => ConnectUndisturbed(s, e, from);
    case FlushFiring => FlushUndisturbed(s, e, from);
    case HandshakeFiring => HandshakeUndisturbed(s, e, from);
    case Failing(batchId) => SendErrUndisturbed(s, batchId, e, from);
    case _ => QuietUndisturbed(s, a, e, from);
  }

  lemma {:induction false} StaysUndisturbed(s: State, e: Entry, from: nat, after: seq<Event>)
    requires Undisturbed(s, e, from) && e.InFlight()
    requires forall f :: f in after && f.SendFails? ==> f.batchId != e.batchId
    ensures Undisturbed(Run(s, after), e, from)
  {
    var inv := (t: State) => Undisturbed(t, e, from);
    var ok := (a: Action) => NotFailing(a, e.batchId);
    forall t, a | inv(t) && ok(a) ensures inv(Act(t, a)) {
      ActUndisturbed(t, a, e, from);
    }
    Everywhere(inv, ok, s, after);
  }

  lemma StartsUndisturbed(intervalMs: int, before: seq<Event>, i: nat)
    requires i < |Run(Init(intervalMs), before).outbox|
    ensures var s := Run(Init(intervalMs), before);
      Undisturbed(s, s.outbox[i], |s.hist.sent|)
  {
    var s := Run(Init(intervalMs), before);
    MessagesAreConserved(intervalMs, before);
    forall j | 0 <= j < |s.outbox| && s.outbox[j].serial == s.outbox[i].serial ensures j == i {
      if i < j {
        SerialsIncrease(s, i, j);
      } else if j < i {
        SerialsIncrease(s, j, i);
      }
    }
  }

  /** From any state that a client reaches, a message in flight is not sent again, and keeps its ids
      and labels while it is queued, through every continuation in which its batch does not fail. */
  lemma {:induction false} SentOnceUnlessFailed(intervalMs: int, before: seq<Event>, i: nat, after: seq<Event>)
    requires var s := Run(Init(intervalMs), before);
      && i < |s.outbox| && s.outbox[i].InFlight()
      && forall e :: e in after && e.SendFails? ==> e.batchId != s.outbox[i].batchId
    ensures var s := Run(Init(intervalMs), before);
      var e := s.outbox[i];
      var t := Run(s, after);
      && (forall k :: |s.hist.sent| <= k < |t.hist.sent| ==> !Emits(t.hist.sent[k], e.serial))
      && (forall j :: 0 <= j < |t.outbox| && t.outbox[j].serial == e.serial ==> t.outbox[j] == e)
  {
    var s := Run(Init(intervalMs), before);
    var e, from := s.outbox[i], |s.hist.sent|;
    StartsUndisturbed(intervalMs, before, i);
    StaysUndisturbed(s, e, from, after);
  }

  // ---------------------------------------------------------------------------------------------
  // A complete exchange
  // ---------------------------------------------------------------------------------------------

  /** The entries that have an id, in order. */
  function OnlyInFlight(es: seq<Entry>): seq<Entry> {
    if es == [] then []
    else
      var e := es[|es| - 1];
      OnlyInFlight(es[..|es| - 1]) + if e.InFlight() then [e] else []
  }

  /** The id texts that a server finds in the messages of a batch. */
  function EchoedIds(items: seq<SentItem>): set<Word> {
    set k | 0 <= k < |items| && "id" in items[k].doc && items[k].doc["id"].Text? ::
      ParseId(items[k].doc["id"].text)
  }

  lemma {:induction false} WaitingIsItem(s: State, n: nat, i: nat)
    requires i < n <= |s.outbox| && !s.outbox[i].InFlight()
    ensures SentItem(s.outbox[i].serial, StampedAt(s, i).doc) in ItemsUpTo(s, n)
  {
    if i < n - 1 {
      WaitingIsItem(s, n - 1, i);
    }
  }

  lemma WaitingIsEchoed(s: State, i: nat)
    requires i < |s.outbox| && !s.outbox[i].InFlight()
    ensures StampedAt(s, i).msgId in EchoedIds(ItemsUpTo(s, |s.outbox|))
  {
    var items := ItemsUpTo(s, |s.outbox|);
    var e := StampedAt(s, i);
    WaitingIsItem(s, |s.outbox|, i);
    var k :| 0 <= k < |items| && items[k] == SentItem(s.outbox[i].serial, e.doc);
    LabellingKeepsTheRest(s.outbox[i].doc, e.msgId, s.clientId);
    IdTextRoundTrip(e.msgId);
  }

  lemma OnlyWaitingIsEchoed(s: State, id: Word) returns (j: nat)
    requires id in EchoedIds(ItemsUpTo(s, |s.outbox|))
    ensures j < |s.outbox| && !s.outbox[j].InFlight() && StampedAt(s, j).msgId == id
  {
    var items := ItemsUpTo(s, |s.outbox|);
    var k :| 0 <= k < |items| && "id" in items[k].doc && items[k].doc["id"].Text?
          && ParseId(items[k].doc["id"].text) == id;
    ItemsComeFromWaiting(s, |s.outbox|, k);
    j :| 0 <= j < |s.outbox| && !s.outbox[j].InFlight()
      && items[k] == SentItem(s.outbox[j].serial, StampedAt(s, j).doc);
    LabellingKeepsTheRest(s.outbox[j].doc, StampedAt(s, j).msgId, s.clientId);
    IdTextRoundTrip(StampedAt(s, j).msgId);
  }

  /** No new id equals one that was in flight already. */
  lemma StampsDiffer(s: State, i: nat, j: nat)
    requires IdsDiffer(Stamped(s)) && i < |s.outbox| && j < |s.outbox|
    requires s.outbox[i].InFlight() && !s.outbox[j].InFlight()
    ensures StampedAt(s, i).msgId != StampedAt(s, j).msgId
  {
    assert Stamped(s)[i] == StampedAt(s, i) && Stamped(s)[j] == StampedAt(s, j);
  }

  lemma EchoesAreStamps(s: State, i: nat)
    requires i < |s.outbox| && IdsDiffer(Stamped(s))
    ensures StampedAt(s, i).msgId in EchoedIds(ItemsUpTo(s, |s.outbox|)) <==> !s.outbox[i].InFlight()
  {
    if !s.outbox[i].InFlight() {
      WaitingIsEchoed(s, i);
    } else if StampedAt(s, i).msgId in EchoedIds(ItemsUpTo(s, |s.outbox|)) {
      var j := OnlyWaitingIsEchoed(s, StampedAt(s, i).msgId);
      StampsDiffer(s, i, j);
    }
  }

  lemma {:induction false} WithoutEchoes(s: State, n: nat)
    requires n <= |s.outbox| && IdsDiffer(Stamped(s))
    ensures Without(Stamped(s)[..n], EchoedIds(ItemsUpTo(s, |s.outbox|))) == OnlyInFlight(s.outbox[..n])
  {
    if n > 0 {
      WithoutEchoes(s, n - 1);
      EchoesAreStamps(s, n - 1);
      assert Stamped(s)[..n][..n - 1] == Stamped(s)[..n - 1];
      assert s.outbox[..n][..n - 1] == s.outbox[..n - 1];
    }
  }

  /** From any state that a client reaches with the gate open: when a flush is answered by replies
      that echo the ids found in the messages it sent, in any order and any number of times, the
      outbox is back to exactly the entries that were in flight before the flush. */
  lemma {:induction false} ExchangeCompletes(intervalMs: int, es: seq<Event>, ms: seq<Incoming>)
    requires var s := Run(Init(intervalMs), es);
      var t := FlushTimerFires(s);
      && s.handshakeIndex == -1 && s.outbox != [] && MsgWindow(t)
      && Replies(ms)
      && t.hist.sent[|t.hist.sent| - 1].Batch?
      && AnsweredIds(ms) == EchoedIds(t.hist.sent[|t.hist.sent| - 1].items)
    ensures var s := Run(Init(intervalMs), es);
      BatchRecv(FlushTimerFires(s), ms).outbox == OnlyInFlight(s.outbox)
  {
    var s := Run(Init(intervalMs), es);
    EntriesAreKept(intervalMs, es);
    ExchangeFrom(s.(flushTimer := false), ms);
  }

  lemma {:induction false} ExchangeFrom(s: State, ms: seq<Incoming>)
    requires Kept(s) && s.outbox != [] && MsgWindow(FlushAll(s))
    requires Replies(ms) && AnsweredIds(ms) == EchoedIds(ItemsUpTo(s, |s.outbox|))
    ensures ReceiveAll(FlushAll(s), ms).outbox == OnlyInFlight(s.outbox)
  {
    FlushAllKeeps(s);
    KeptIdsDiffer(FlushAll(s));
    RepliesRemoveAnswered(FlushAll(s), ms);
    assert Stamped(s)[..|s.outbox|] == Stamped(s) && s.outbox[..|s.outbox|] == s.outbox;
    WithoutEchoes(s, |s.outbox|);
  }
}
