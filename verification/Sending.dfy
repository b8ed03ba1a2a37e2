/** The texts that flushes hand to the transport. */
module Sending {
  import opened Documents
  import opened Engine
  import opened WireText

  /** The texts of some messages, as json-c prints them with `toText`. */
  function ItemTexts(items: seq<SentItem>, toText: Doc -> string): (texts: seq<string>)
    ensures |texts| == |items|
  {
    seq(|items|, k requires 0 <= k < |items| => toText(items[k].doc))
  }

  function TextOf(t: Transmission, toText: Doc -> string): string {
    match t
    case Blank => ""
    case Batch(_, items) => ArrayText(ItemTexts(items, toText))
  }

  ghost predicate NeverEmpty(toText: Doc -> string) {
    forall doc :: toText(doc) != ""
  }

  lemma ItemTextsOneMore(items: seq<SentItem>, item: SentItem, toText: Doc -> string)
    ensures ItemTexts(items + [item], toText) == ItemTexts(items, toText) + [toText(item.doc)]
  {
  }

  /** Looking at one character is enough to tell whether anything has been joined yet. */
  lemma {:induction false} JoinIsEmpty(texts: seq<string>)
    requires forall k :: 0 <= k < |texts| ==> texts[k] != ""
    ensures Join(texts) == "" <==> texts == []
  {
  }

  /** Joining one text more, with a comma in between unless it is the first. */
  lemma JoinOneMore(texts: seq<string>, t: string)
    ensures Join(texts + [t]) == if texts == [] then t else Join(texts) + "," + t
  {
    assert (texts + [t])[..|texts|] == texts;
  }

  lemma {:induction false} ItemsPrefix(s: State, i: nat, j: nat)
    requires i <= j <= |s.outbox|
    ensures ItemsUpTo(s, i) <= ItemsUpTo(s, j)
  {
    if i < j {
      ItemsPrefix(s, i, j - 1);
    }
  }

  /** What has been written of a flush's text is never longer than the whole. */
  lemma PartialTextLength(s: State, i: nat, toText: Doc -> string)
    requires i <= |s.outbox| && s.outbox != []
    ensures |Join(ItemTexts(ItemsUpTo(s, i), toText))| + 2 <= |TextOf(AllTransmission(s), toText)|
  {
    var n := |s.outbox|;
    ItemsPrefix(s, i, n);
    var all, some := ItemTexts(ItemsUpTo(s, n), toText), ItemTexts(ItemsUpTo(s, i), toText);
    assert all[..|some|] == some;
    JoinPrefixLength(all, |some|);
  }

  /** A reader of the text of a flush recovers exactly the texts of the messages that were waiting,
      in queue order, when the message texts are those of JSON objects. */
  lemma FlushTextIsReadable(s: State, toText: Doc -> string)
    requires s.outbox != [] && forall doc :: IsElement(toText(doc))
    ensures SplitArray(TextOf(AllTransmission(s), toText)) == ItemTexts(ItemsUpTo(s, |s.outbox|), toText)
    ensures forall i :: 0 <= i < |Stamped(s)| ==> Stamped(s)[i].InFlight()
  {
    var items := ItemsUpTo(s, |s.outbox|);
    forall k | 0 <= k < |items| ensures IsElement(ItemTexts(items, toText)[k]) {
      assert ItemTexts(items, toText)[k] == toText(items[k].doc);
    }
    SplitUndoesJoin(ItemTexts(items, toText));
    forall i | 0 <= i < |Stamped(s)| ensures Stamped(s)[i].InFlight() {
      assert Stamped(s)[i] == StampedAt(s, i);
    }
  }

  /** With everything in flight already, the text is an empty array. */
  lemma {:induction false} NothingWaiting(s: State, n: nat)
    requires n <= |s.outbox| && forall i :: 0 <= i < n ==> s.outbox[i].InFlight()
    ensures ItemsUpTo(s, n) == []
  {
    if n > 0 {
      NothingWaiting(s, n - 1);
    }
  }

  lemma NothingWaitingText(s: State, toText: Doc -> string)
    requires s.outbox != [] && forall i :: 0 <= i < |s.outbox| ==> s.outbox[i].InFlight()
    ensures TextOf(AllTransmission(s), toText) == "[]"
  {
    NothingWaiting(s, |s.outbox|);
    assert ItemTexts([], toText) == [];
  }

  lemma OneText(s: State, i: nat, toText: Doc -> string)
    requires i < |s.outbox| && !s.outbox[i].InFlight()
    ensures TextOf(OneTransmission(s, i), toText) == ArrayText([toText(StampedOne(s, i).doc)])
    ensures |TextOf(OneTransmission(s, i), toText)| == |toText(StampedOne(s, i).doc)| + 2
  {
    var items := [SentItem(s.outbox[i].serial, StampedOne(s, i).doc)];
    assert ItemTexts(items, toText) == [toText(StampedOne(s, i).doc)];
  }

  /** What has been written between the brackets after the first `n` entries. */
  function BodyUpTo(s: State, n: nat, toText: Doc -> string): string
    requires n <= |s.outbox|
  {
    Join(ItemTexts(ItemsUpTo(s, n), toText))
  }

  function WithNext(body: string, text: string): string {
    if body == "" then text else body + "," + text
  }

  /** The next entry adds its text, if it is waiting, and the result still fits. */
  lemma BodyGrows(s: State, n: nat, toText: Doc -> string)
    requires n < |s.outbox| && NeverEmpty(toText)
    ensures BodyUpTo(s, n + 1, toText) ==
      if s.outbox[n].InFlight() then BodyUpTo(s, n, toText)
      else WithNext(BodyUpTo(s, n, toText), toText(StampedAt(s, n).doc))
    ensures !s.outbox[n].InFlight() ==>
      |BodyUpTo(s, n, toText)| + |toText(StampedAt(s, n).doc)| + 2 <= |TextOf(AllTransmission(s), toText)|
  {
    if !s.outbox[n].InFlight() {
      var items, item := ItemsUpTo(s, n), SentItem(s.outbox[n].serial, StampedAt(s, n).doc);
      var texts := ItemTexts(items, toText);
      ItemTextsOneMore(items, item, toText);
      forall k | 0 <= k < |texts| ensures texts[k] != "" {
        assert texts[k] == toText(items[k].doc);
      }
      JoinIsEmpty(texts);
      JoinOneMore(texts, toText(item.doc));
      PartialTextLength(s, n + 1, toText);
    }
  }

  lemma BodyIsText(s: State, toText: Doc -> string)
    requires s.outbox != []
    ensures TextOf(AllTransmission(s), toText) == "[" + BodyUpTo(s, |s.outbox|, toText) + "]"
    ensures |TextOf(AllTransmission(s), toText)| == |BodyUpTo(s, |s.outbox|, toText)| + 2
  {
  }

  /** Where a flush of the whole queue stands after the first `n` entries. */
  function FlushTo(s: State, n: nat): (t: State)
    requires n <= |s.outbox|
    ensures |t.outbox| == |s.outbox|
  {
    if n == 0 then s.(batchTicks := s.batchTicks + 1)
    else
      var t := FlushTo(s, n - 1);
      if s.outbox[n - 1].InFlight() then t
      else
        t.(outbox := t.outbox[n - 1 := Stamp(s.outbox[n - 1], t.msgTicks, s.batchTicks, s.clientId)],
           msgTicks := t.msgTicks + 1)
  }

  lemma {:induction false} FlushToCounts(s: State, n: nat)
    requires n <= |s.outbox|
    ensures FlushTo(s, n) ==
      s.(outbox := FlushTo(s, n).outbox, msgTicks := s.msgTicks + Unsent(s.outbox[..n]),
         batchTicks := s.batchTicks + 1)
  {
    if n > 0 {
      FlushToCounts(s, n - 1);
      assert s.outbox[..n][..n - 1] == s.outbox[..n - 1];
    }
  }

  /** Going through the entries one by one gives each the ids that `StampedAt` says. */
  lemma {:induction false} FlushToStamps(s: State, n: nat, j: nat)
    requires n <= |s.outbox| && j < |s.outbox|
    ensures FlushTo(s, n).outbox[j] == if j < n then StampedAt(s, j) else s.outbox[j]
  {
    hide Unsent, Labelled;
    if n > 0 {
      FlushToStamps(s, n - 1, j);
      FlushToCounts(s, n - 1);
    }
  }

  lemma FlushToEnd(s: State)
    requires s.outbox != []
    ensures Send(FlushTo(s, |s.outbox|), AllTransmission(s)) == FlushAll(s)
  {
    hide FlushTo, StampedAt, Unsent, ItemsUpTo;
    FlushToCounts(s, |s.outbox|);
    assert s.outbox[..|s.outbox|] == s.outbox;
    forall j | 0 <= j < |s.outbox| ensures FlushTo(s, |s.outbox|).outbox[j] == Stamped(s)[j] {
      FlushToStamps(s, |s.outbox|, j);
    }
    assert FlushTo(s, |s.outbox|).outbox == Stamped(s);
  }
}
