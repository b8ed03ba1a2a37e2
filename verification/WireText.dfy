/** The text of a batch on the wire: a JSON array (section 5 of RFC 8259) of the messages' texts,
    and how a reader cuts it back into them. */
module WireText {

  /** The texts of a batch with commas between them. */
  function Join(texts: seq<string>): string {
    if texts == [] then ""
    else if |texts| == 1 then texts[0]
    else Join(texts[..|texts| - 1]) + "," + texts[|texts| - 1]
  }

  function ArrayText(texts: seq<string>): string {
    "[" + Join(texts) + "]"
  }

  /** Where a reader of JSON text is: how deep in objects and arrays, and whether in a string. */
  datatype Scan = Scan(depth: nat, inString: bool, escaped: bool)

  const TOP := Scan(0, false, false)

  function Advance(at: Scan, c: char): Scan {
    if at.inString then
      if at.escaped then at.(escaped := false)
      else if c == '\\' then at.(escaped := true)
      else if c == '"' then at.(inString := false)
      else at
    else if c == '"' then at.(inString := true)
    else if c == '{' || c == '[' then at.(depth := at.depth + 1)
    else if (c == '}' || c == ']') && at.depth > 0 then at.(depth := at.depth - 1)
    else at
  }

  /** Where the reader is after `t`, having started at the top level. */
  function After(t: string): Scan {
    if t == "" then TOP else Advance(After(t[..|t| - 1]), t[|t| - 1])
  }

  /** A non-empty text that ends where it began and has no comma at the top level, as the text of
      a JSON object does. */
  ghost predicate IsElement(t: string) {
    && t != ""
    && After(t) == TOP
    && NoTopComma(t)
  }

  /** Adds text to the end of the last piece. */
  function Extend(ps: seq<string>, t: string): seq<string>
    requires ps != []
  {
    ps[..|ps| - 1] + [ps[|ps| - 1] + t]
  }

  /** Cuts a text at its top-level commas. */
  function Pieces(t: string): (ps: seq<string>)
    ensures ps != []
  {
    if t == "" then [""]
    else
      var ps := Pieces(t[..|t| - 1]);
      var c := t[|t| - 1];
      if c == ',' && After(t[..|t| - 1]) == TOP then ps + [""] else Extend(ps, [c])
  }

  /** The elements of the text of a JSON array. */
  function SplitArray(text: string): seq<string>
    requires |text| >= 2
  {
    var body := text[1..|text| - 1];
    if body == "" then [] else Pieces(body)
  }

  lemma {:induction false} AfterContinues(a: string, b: string)
    requires After(a) == TOP
    ensures After(a + b) == After(b)
  {
    if b == "" {
      assert a + b == a;
    } else {
      var b' := b[..|b| - 1];
      AfterContinues(a, b');
      assert (a + b)[..|a + b| - 1] == a + b';
    }
  }

  /** A text that takes no comma at the top level. */
  ghost predicate NoTopComma(t: string) {
    forall i :: 0 <= i < |t| && t[i] == ',' ==> After(t[..i]) != TOP
  }

  lemma NoTopCommaPrefix(t: string)
    requires t != "" && NoTopComma(t)
    ensures NoTopComma(t[..|t| - 1])
    ensures t[|t| - 1] == ',' ==> After(t[..|t| - 1]) != TOP
  {
    var t' := t[..|t| - 1];
    forall i | 0 <= i < |t'| && t'[i] == ',' ensures After(t'[..i]) != TOP {
      assert t'[..i] == t[..i];
    }
  }

  lemma ExtendTwice(ps: seq<string>, a: string, b: string)
    requires ps != []
    ensures Extend(Extend(ps, a), b) == Extend(ps, a + b)
    ensures Extend(ps, "") == ps
  {
    var last := ps[|ps| - 1];
    assert last + (a + b) == (last + a) + b;
    assert last + "" == last;
  }

  /** Reading an element from the top level adds characters to the last piece only. */
  lemma {:induction false} PiecesGrow(a: string, b: string)
    requires After(a) == TOP && NoTopComma(b)
    ensures Pieces(a + b) == Extend(Pieces(a), b)
  {
    hide After, Pieces, NoTopComma, Extend;
    if b == "" {
      assert a + b == a;
      ExtendTwice(Pieces(a), "", "");
    } else {
      var b', c := b[..|b| - 1], b[|b| - 1];
      NoTopCommaPrefix(b);
      PiecesGrow(a, b');
      AfterContinues(a, b');
      PiecesStep(a + b', c);
      assert a + b == a + b' + [c];
      ExtendTwice(Pieces(a), b', [c]);
      assert b == b' + [c];
    }
  }

  lemma PiecesStep(t: string, c: char)
    ensures Pieces(t + [c]) ==
      if c == ',' && After(t) == TOP then Pieces(t) + [""] else Extend(Pieces(t), [c])
  {
    assert (t + [c])[..|t + [c]| - 1] == t;
  }

  lemma {:induction false} JoinPieces(texts: seq<string>)
    requires texts != []
    requires forall i :: 0 <= i < |texts| ==> IsElement(texts[i])
    ensures After(Join(texts)) == TOP && Join(texts) != ""
    ensures Pieces(Join(texts)) == texts
  {
    assert IsElement(texts[|texts| - 1]);
    if |texts| == 1 {
      SinglePiece(texts[0]);
    } else {
      var rest := texts[..|texts| - 1];
      JoinPieces(rest);
      PiecesAppend(Join(rest), texts[|texts| - 1], Join(texts));
    }
  }

  lemma SinglePiece(t: string)
    requires NoTopComma(t)
    ensures Pieces(t) == [t]
  {
    PiecesGrow("", t);
    assert "" + t == t;
  }

  lemma PiecesAppend(t: string, last: string, all: string)
    requires After(t) == TOP && IsElement(last)
    requires all == t + "," + last
    ensures After(all) == TOP && all != ""
    ensures Pieces(all) == Pieces(t) + [last]
  {
    var a := t + ",";
    PiecesStep(t, ',');
    assert a[..|a| - 1] == t;
    PiecesGrow(a, last);
    AfterContinues(a, last);
    assert "" + last == last;
  }

  /** A reader recovers exactly the messages that were joined, in order. */
  lemma SplitUndoesJoin(texts: seq<string>)
    requires forall i :: 0 <= i < |texts| ==> IsElement(texts[i])
    ensures SplitArray(ArrayText(texts)) == texts
  {
    var t := ArrayText(texts);
    assert t[1..|t| - 1] == Join(texts);
    if texts != [] {
      JoinPieces(texts);
    }
  }

  lemma {:induction false} JoinPrefixLength(texts: seq<string>, i: nat)
    requires i <= |texts|
    ensures |Join(texts[..i])| <= |Join(texts)|
  {
    if i == |texts| {
      assert texts[..i] == texts;
    } else {
      var rest := texts[..|texts| - 1];
      assert rest[..i] == texts[..i];
      JoinPrefixLength(rest, i);
    }
  }
}
