/** What the theorems about runs say about the texts that a client object has handed over. */
module Wire {
  import opened Documents
  import opened Engine
  import opened Runs
  import opened Sending
  import opened Handshaking
  import opened FirstCall
  import opened Client

  /** Empty, or an array with one text in it, the text of a labelled handshake. */
  ghost predicate HandshakeText(text: string, toText: Doc -> string) {
    text == "" || exists doc :: Unlabelled(doc) == HandshakeDoc() && text == "[" + toText(doc) + "]"
  }

  lemma HandshakeOnlyText(t: Transmission, toText: Doc -> string)
    requires HandshakeOnly(t)
    ensures HandshakeText(TextOf(t, toText), toText)
  {
    if t.Batch? {
      assert ItemTexts(t.items, toText) == [toText(t.items[0].doc)];
      assert Unlabelled(t.items[0].doc) == HandshakeDoc();
    }
  }

  /** The texts on the wire before a handshake has been answered, for a client object whose life began
      with an API call. */
  lemma {:induction false} WireCarriesHandshakeFirst(c: BayeuxClient, intervalMs: int, first: ApiCall, es: seq<Event>)
    requires c.Valid() && c.Abs() == Run(DoCall(Init(intervalMs), first), es)
    requires ValidReplies(es) && !HandshakeAnswered(c.hist.dispatched)
    ensures forall k :: 0 <= k < |c.wire| ==> HandshakeText(c.wire[k], c.toText)
  {
    HandshakeGoesFirst(intervalMs, first, es);
    WireOfHandshakes(c);
  }

  lemma WireOfHandshakes(c: BayeuxClient)
    requires c.Valid() && HandshakesOnly(c.hist.sent)
    ensures forall k :: 0 <= k < |c.wire| ==> HandshakeText(c.wire[k], c.toText)
  {
    forall k | 0 <= k < |c.wire| ensures HandshakeText(c.wire[k], c.toText) {
      HandshakeOnlyText(c.hist.sent[k], c.toText);
    }
  }

  /** The same for any life of a client object behind a transport that only responds. */
  lemma {:induction false} WireBehindTransport(c: BayeuxClient, intervalMs: int, es: seq<Event>)
    requires c.Valid() && c.Abs() == Run(Init(intervalMs), es)
    requires ValidReplies(es) && Timely(Init(intervalMs), es) && !HandshakeAnswered(c.hist.dispatched)
    ensures forall k :: 0 <= k < |c.wire| ==> HandshakeText(c.wire[k], c.toText)
  {
    GateAlwaysHolds(intervalMs, es);
    WireOfHandshakes(c);
  }
}
