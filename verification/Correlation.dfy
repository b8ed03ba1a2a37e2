/** Replies find the messages they answer, although ids wrap around. */
module Correlation {
  import opened Bits
  import opened Ids
  import opened Documents
  import opened Engine
  import opened Ledger

  // ---------------------------------------------------------------------------------------------
  // Ids in flight are distinct
  // ---------------------------------------------------------------------------------------------

  /** Fewer than one period of message ids has been handed out since the oldest message in flight
      got its own. */
  ghost predicate MsgWindow(s: State) {
    forall i :: 0 <= i < |s.outbox| && s.outbox[i].InFlight() ==>
      s.msgTicks - s.outbox[i].msgTick <= PERIOD
  }

  ghost predicate BatchWindow(s: State) {
    forall i :: 0 <= i < |s.outbox| && s.outbox[i].InFlight() ==>
      s.batchTicks - s.outbox[i].batchTick <= PERIOD
  }

  ghost predicate IdsDiffer(es: seq<Entry>) {
    forall i, j :: 0 <= i < j < |es| && es[i].InFlight() && es[j].InFlight() ==>
      es[i].msgId != es[j].msgId
  }

  lemma TicksWithinPeriod(i: nat, j: nat, n: nat)
    requires i < n && j < n && n - i <= PERIOD && n - j <= PERIOD
    ensures IdAt(i) == IdAt(j) <==> i == j
  {
    if i < j {
      IdsCollide(i, j);
    } else if j < i {
      IdsCollide(j, i);
    }
  }

  lemma KeptIdsDiffer(s: State)
    requires Kept(s) && MsgWindow(s)
    ensures IdsDiffer(s.outbox)
  {
    forall i, j | 0 <= i < j < |s.outbox| && s.outbox[i].InFlight() && s.outbox[j].InFlight()
      ensures s.outbox[i].msgId != s.outbox[j].msgId
    {
      assert EntryKept(s.outbox[i], s.hist.pushed, s.msgTicks, s.batchTicks);
      assert EntryKept(s.outbox[j], s.hist.pushed, s.msgTicks, s.batchTicks);
      TicksWithinPeriod(s.outbox[i].msgTick, s.outbox[j].msgTick, s.msgTicks);
    }
  }

  /** In every state that a client reaches, messages in flight have distinct message ids, and equal
      batch ids exactly when one flush sent them, as long as neither generator has gone round. */
  lemma {:induction false} InFlightIdsDiffer(intervalMs: int, es: seq<Event>)
    ensures var s := Run(Init(intervalMs), es);
      && (MsgWindow(s) ==> IdsDiffer(s.outbox))
      && (BatchWindow(s) ==>
            forall i, j :: 0 <= i < j < |s.outbox| && s.outbox[i].InFlight() && s.outbox[j].InFlight() ==>
              (s.outbox[i].batchId == s.outbox[j].batchId <==> s.outbox[i].batchTick == s.outbox[j].batchTick))
  {
    EntriesAreKept(intervalMs, es);
    var s := Run(Init(intervalMs), es);
    if MsgWindow(s) {
      KeptIdsDiffer(s);
    }
    if BatchWindow(s) {
      forall i, j | 0 <= i < j < |s.outbox| && s.outbox[i].InFlight() && s.outbox[j].InFlight()
        ensures s.outbox[i].batchId == s.outbox[j].batchId <==> s.outbox[i].batchTick == s.outbox[j].batchTick
      {
        assert EntryKept(s.outbox[i], s.hist.pushed, s.msgTicks, s.batchTicks);
        assert EntryKept(s.outbox[j], s.hist.pushed, s.msgTicks, s.batchTicks);
        TicksWithinPeriod(s.outbox[i].batchTick, s.outbox[j].batchTick, s.batchTicks);
      }
    }
  }

  // ---------------------------------------------------------------------------------------------
  // One reply
  // ---------------------------------------------------------------------------------------------

  lemma FindsItsEntry(es: seq<Entry>, i: nat)
    requires i < |es| && es[i].InFlight() && IdsDiffer(es)
    ensures Find(es, ParseId(IdText(es[i].msgId))) == i
  {
    IdTextRoundTrip(es[i].msgId);
    var j := Find(es, es[i].msgId);
    assert j >= 0;
  }

  lemma AdviceLeavesOutbox(s: State, m: Incoming)
    ensures var t := HandleAdvice(s, m);
      t.outbox == s.outbox && t.hist == s.hist && t.msgTicks == s.msgTicks
      && t.batchTicks == s.batchTicks && t.handshakeIndex == s.handshakeIndex
  {
  }

  lemma ReplyRunsOwnHandler(s: State, m: Incoming, i: nat)
    requires IdsDiffer(s.outbox) && i < |s.outbox| && s.outbox[i].InFlight()
    requires m.data.None? && m.id == Some(IdText(s.outbox[i].msgId))
    ensures var e := s.outbox[i];
      var t := Receive(s, m);
      && t == Handle(HandleAdvice(s, m), e.handler, m).(outbox := t.outbox, hist := t.hist)
      && t.outbox == s.outbox[..i] + s.outbox[i + 1..]
      && t.hist.dispatched == s.hist.dispatched + [Dispatched(e.serial, e.handler)]
  {
    AdviceLeavesOutbox(s, m);
    FindsItsEntry(s.outbox, i);
    HandlerLeavesOutbox(HandleAdvice(s, m), s.outbox[i].handler, m);
  }

  /** In every state that a client reaches: a reply that echoes the id text carried by a message in
      flight runs that message's own handler and removes exactly that message, leaving all others
      as they were. */
  lemma {:induction false} RepliesAreCorrelated(intervalMs: int, es: seq<Event>, m: Incoming, i: nat)
    requires var s := Run(Init(intervalMs), es);
      && MsgWindow(s) && i < |s.outbox| && s.outbox[i].InFlight()
      && "id" in s.outbox[i].doc && s.outbox[i].doc["id"].Text?
      && m.data.None? && m.id == Some(s.outbox[i].doc["id"].text)
    ensures var s := Run(Init(intervalMs), es);
      var e := s.outbox[i];
      var t := Receive(s, m);
      && t == Handle(HandleAdvice(s, m), e.handler, m).(outbox := t.outbox, hist := t.hist)
      && t.outbox == s.outbox[..i] + s.outbox[i + 1..]
      && t.hist.dispatched == s.hist.dispatched + [Dispatched(e.serial, e.handler)]
  {
    var s := Run(Init(intervalMs), es);
    EntriesAreKept(intervalMs, es);
    KeptIdsDiffer(s);
    assert EntryKept(s.outbox[i], s.hist.pushed, s.msgTicks, s.batchTicks);
    ReplyRunsOwnHandler(s, m, i);
  }

  // ---------------------------------------------------------------------------------------------
  // A batch of replies
  // ---------------------------------------------------------------------------------------------

  /** The entries whose message ids are not in a set, in order. */
  function Without(es: seq<Entry>, ids: set<Word>): seq<Entry> {
    if es == [] then []
    else
      var e := es[|es| - 1];
      Without(es[..|es| - 1], ids) + if e.msgId in ids then [] else [e]
  }

  /** The entries outside a batch, in order. */
  function WithoutBatch(es: seq<Entry>, batchId: Word): seq<Entry> {
    if es == [] then []
    else
      var e := es[|es| - 1];
      WithoutBatch(es[..|es| - 1], batchId) + if e.batchId == batchId then [] else [e]
  }

  /** The ids that some messages answer. */
  function AnsweredIds(ms: seq<Incoming>): set<Word> {
    set m | m in ms && m.id.Some? :: ParseId(m.id.value)
  }

  /** Replies to messages that have been sent. */
  predicate Replies(ms: seq<Incoming>) {
    forall m :: m in ms ==> m.data.None? && (m.id.Some? ==> ParseId(m.id.value) != INVALID_ID)
  }

  lemma {:induction false} WithoutNothing(es: seq<Entry>, ids: set<Word>)
    requires forall i :: 0 <= i < |es| ==> es[i].msgId !in ids
    ensures Without(es, ids) == es
  {
    if es != [] {
      WithoutNothing(es[..|es| - 1], ids);
    }
  }

  lemma {:induction false} WithoutTwice(es: seq<Entry>, a: set<Word>, b: set<Word>)
    ensures Without(Without(es, a), b) == Without(es, a + b)
  {
    if es != [] {
      var rest, e := es[..|es| - 1], es[|es| - 1];
      WithoutTwice(rest, a, b);
      if e.msgId !in a {
        var w := Without(es, a);
        assert w[..|w| - 1] == Without(rest, a);
      } else {
        assert Without(es, a) == Without(rest, a);
      }
    }
  }

  lemma {:induction false} RemoveIsWithout(es: seq<Entry>, i: nat)
    requires i < |es| && es[i].InFlight() && IdsDiffer(es)
    ensures RemoveAt(es, i) == Without(es, {es[i].msgId})
  {
    var rest, n := es[..|es| - 1], |es| - 1;
    if i == n {
      WithoutNothing(rest, {es[i].msgId});
    } else {
      RemoveIsWithout(rest, i);
      assert RemoveAt(es, i) == RemoveAt(rest, i) + [es[n]];
    }
  }

  lemma {:induction false} WithoutKeepsDistinct(es: seq<Entry>, ids: set<Word>)
    requires IdsDiffer(es)
    ensures IdsDiffer(Without(es, ids))
    ensures forall e :: e in Without(es, ids) ==> e in es
  {
    if es != [] {
      var rest, e := es[..|es| - 1], es[|es| - 1];
      WithoutKeepsDistinct(rest, ids);
      var w := Without(rest, ids);
      forall i | 0 <= i < |w| && w[i].InFlight() && e.InFlight() ensures w[i].msgId != e.msgId {
        assert w[i] in rest;
      }
    }
  }

  lemma ReplyIsWithout(s: State, m: Incoming)
    requires IdsDiffer(s.outbox) && Replies([m])
    ensures Receive(s, m).outbox == Without(s.outbox, AnsweredIds([m]))
  {
    assert m in [m];
    AdviceLeavesOutbox(s, m);
    if m.id.None? {
      assert AnsweredIds([m]) == {};
      WithoutNothing(s.outbox, {});
    } else {
      var id := ParseId(m.id.value);
      assert AnsweredIds([m]) == {id};
      var i := Find(s.outbox, id);
      if i < 0 {
        WithoutNothing(s.outbox, {id});
      } else {
        HandlerLeavesOutbox(HandleAdvice(s, m), s.outbox[i].handler, m);
        RemoveIsWithout(s.outbox, i);
      }
    }
  }

  lemma AnsweredIdsSplit(ms: seq<Incoming>)
    requires ms != []
    ensures AnsweredIds(ms) == AnsweredIds(ms[..|ms| - 1]) + AnsweredIds([ms[|ms| - 1]])
  {
    var rest, m := ms[..|ms| - 1], ms[|ms| - 1];
    assert m in ms && m in [m];
    assert forall n :: n in ms <==> n in rest || n == m;
  }

  /** What a batch of replies removes depends only on the set of ids it answers: not on the order of
      the replies, nor on repeated or unknown ones. */
  lemma {:induction false} RepliesRemoveAnswered(s: State, ms: seq<Incoming>)
    requires IdsDiffer(s.outbox) && Replies(ms)
    ensures ReceiveAll(s, ms).outbox == Without(s.outbox, AnsweredIds(ms))
  {
    if ms == [] {
      assert AnsweredIds(ms) == {};
      WithoutNothing(s.outbox, {});
    } else {
      var rest, m := ms[..|ms| - 1], ms[|ms| - 1];
      assert m in ms;
      RepliesRemoveAnswered(s, rest);
      WithoutKeepsDistinct(s.outbox, AnsweredIds(rest));
      ReplyIsWithout(ReceiveAll(s, rest), m);
      WithoutTwice(s.outbox, AnsweredIds(rest), AnsweredIds([m]));
      AnsweredIdsSplit(ms);
    }
  }

  function BatchIds(es: seq<Entry>, batchId: Word): set<Word> {
    set i | 0 <= i < |es| && es[i].batchId == batchId :: es[i].msgId
  }

  lemma {:induction false} WithoutIdsOfBatch(es: seq<Entry>, ids: set<Word>, batchId: Word)
    requires forall i :: 0 <= i < |es| ==> (es[i].msgId in ids <==> es[i].batchId == batchId)
    ensures Without(es, ids) == WithoutBatch(es, batchId)
  {
    if es != [] {
      WithoutIdsOfBatch(es[..|es| - 1], ids, batchId);
    }
  }

  /** In every state that a client reaches: replies that answer the messages of one batch in flight,
      in any order, leave exactly the old outbox without that batch, and a flush is pending if
      anything is left. */
  lemma {:induction false} BatchIsAcknowledged(intervalMs: int, es: seq<Event>, batchId: Word, ms: seq<Incoming>)
    requires var s := Run(Init(intervalMs), es);
      && MsgWindow(s) && batchId != INVALID_ID
      && Replies(ms) && AnsweredIds(ms) == BatchIds(s.outbox, batchId)
    ensures var s := Run(Init(intervalMs), es);
      var t := BatchRecv(s, ms);
      && t.outbox == WithoutBatch(s.outbox, batchId)
      && (t.outbox != [] ==> t.flushTimer)
  {
    var s := Run(Init(intervalMs), es);
    EntriesAreKept(intervalMs, es);
    KeptIdsDiffer(s);
    RepliesRemoveAnswered(s, ms);
    forall i | 0 <= i < |s.outbox|
      ensures s.outbox[i].msgId in AnsweredIds(ms) <==> s.outbox[i].batchId == batchId
    {
      InBatchIffAnswered(s, batchId, i);
    }
    WithoutIdsOfBatch(s.outbox, AnsweredIds(ms), batchId);
  }

  lemma InBatchIffAnswered(s: State, batchId: Word, i: nat)
    requires Kept(s) && IdsDiffer(s.outbox) && batchId != INVALID_ID && i < |s.outbox|
    ensures s.outbox[i].msgId in BatchIds(s.outbox, batchId) <==> s.outbox[i].batchId == batchId
  {
    assert EntryKept(s.outbox[i], s.hist.pushed, s.msgTicks, s.batchTicks);
    if s.outbox[i].msgId in BatchIds(s.outbox, batchId) {
      var j :| 0 <= j < |s.outbox| && s.outbox[j].batchId == batchId && s.outbox[j].msgId == s.outbox[i].msgId;
      assert EntryKept(s.outbox[j], s.hist.pushed, s.msgTicks, s.batchTicks);
    }
  }
}
