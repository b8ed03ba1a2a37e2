/** Message and batch ids: the wrapping generators, and the hexadecimal text that carries a message
    id to the server and back. */
module Ids {
  import opened Bits

  /** `MSG_ID_INVALID` and `BATCH_ID_INVALID`: no id assigned. */
  const INVALID_ID: Word := 0xffff_ffff

  /** How many different ids a generator hands out before it repeats itself. */
  const PERIOD: nat := 0xffff_ffff

  /** The id that a generator hands out when it has handed out `k` before. */
  function IdAt(k: nat): (id: Word)
    ensures id != INVALID_ID
  {
    k % PERIOD
  }

  /** A generator's counter moves on by one in 32 bits, and by one more if that makes it invalid. */
  function NextId(id: Word): Word {
    var n := (id + 1) % W32;
    if n == INVALID_ID then (n + 1) % W32 else n
  }

  /** The counter always holds the next id of the sequence, across wrap-around. */
  lemma {:induction false} GeneratorFollowsSequence(k: nat)
    ensures NextId(IdAt(k)) == IdAt(k + 1)
  {
    if k % PERIOD == PERIOD - 1 {
      ModUnique(k + 1, PERIOD, k / PERIOD + 1, 0);
    } else {
      ModUnique(k + 1, PERIOD, k / PERIOD, k % PERIOD + 1);
    }
  }

  /** Two ids handed out are equal exactly when a whole number of periods lies between them, so ids
      less than one period apart differ. */
  lemma {:induction false} IdsCollide(i: nat, j: nat)
    requires i < j
    ensures IdAt(i) == IdAt(j) <==> (j - i) % PERIOD == 0
    ensures j - i < PERIOD ==> IdAt(i) != IdAt(j)
  {
    var qi, qj := i / PERIOD, j / PERIOD;
    assert i == qi * PERIOD + IdAt(i) && j == qj * PERIOD + IdAt(j);
    if IdAt(i) == IdAt(j) {
      assert j - i == (qj - qi) * PERIOD + 0;
      ModUnique(j - i, PERIOD, qj - qi, 0);
    } else if (j - i) % PERIOD == 0 {
      var q := (j - i) / PERIOD;
      ModUnique(j, PERIOD, qi + q, IdAt(i));
    }
  }

  function HexDigit(d: nat): char
    requires d < 16
  {
    "0123456789abcdef"[d]
  }

  /** `%x`. */
  function HexText(n: nat): (t: string)
    ensures t != ""
  {
    if n < 16 then [HexDigit(n)] else HexText(n / 16) + [HexDigit(n % 16)]
  }

  /** What `snprintf` leaves in the nine-character buffer of `json_set_msg_id`. */
  function IdText(id: Word): string {
    var t := HexText(id);
    if |t| <= 8 then t else t[..8]
  }

  /** The value of a character as a base-16 digit, or -1. */
  function DigitValue(c: char): (d: int)
    ensures -1 <= d < 16
  {
    if '0' <= c <= '9' then c as int - '0' as int
    else if 'a' <= c <= 'f' then c as int - 'a' as int + 10
    else if 'A' <= c <= 'F' then c as int - 'A' as int + 10
    else -1
  }

  /** The longest prefix made of base-16 digits. */
  function Digits(s: string): (p: string)
    ensures |p| <= |s| && p == s[..|p|]
    ensures |p| == |s| || DigitValue(s[|p|]) == -1
    ensures forall i :: 0 <= i < |p| ==> DigitValue(p[i]) >= 0
  {
    if s == "" || DigitValue(s[0]) == -1 then "" else [s[0]] + Digits(s[1..])
  }

  function Value(digits: string): nat
    requires forall i :: 0 <= i < |digits| ==> DigitValue(digits[i]) >= 0
  {
    if digits == "" then 0
    else 16 * Value(digits[..|digits| - 1]) + DigitValue(digits[|digits| - 1])
  }

  /** `isspace`. */
  predicate IsSpace(c: char) {
    c == ' ' || '\t' <= c <= '\r'
  }

  function SkipSpace(s: string): string {
    if s != "" && IsSpace(s[0]) then SkipSpace(s[1..]) else s
  }

  function SkipPrefix(s: string): string {
    if |s| >= 2 && s[0] == '0' && (s[1] == 'x' || s[1] == 'X') then s[2..] else s
  }

  /** The number that a text starts with, after an optional `0x`. A text without digits gives 0. */
  function Magnitude(s: string): nat {
    Value(Digits(SkipPrefix(s)))
  }

  predicate IsSigned(t: string) {
    t != "" && (t[0] == '-' || t[0] == '+')
  }

  /** There is a minus sign after any leading space. */
  predicate IsNegative(s: string) {
    var t := SkipSpace(s);
    t != "" && t[0] == '-'
  }

  /** What is left after leading space and a sign. */
  function AfterSign(s: string): string {
    var t := SkipSpace(s);
    if IsSigned(t) then t[1..] else t
  }

  /** `strtoul(s, NULL, 16)` with a 64-bit `unsigned long`: leading space, an optional sign and a
      number, saturating at the largest value and negated modulo 2^64 after a minus sign. */
  function Strtoul16(s: string): (v: nat)
    ensures v < W64
  {
    var v := Magnitude(AfterSign(s));
    if v >= W64 then W64 - 1
    else if IsNegative(s) && v != 0 then W64 - v
    else v
  }

  /** The message id that `json_get_msg_id` reads out of a text. */
  function ParseId(s: string): Word {
    Strtoul16(s) % W32
  }

  /** At most eight digits: `snprintf` never truncates an id. */
  lemma {:induction false} HexTextLength(n: nat, k: nat)
    requires k > 0 && n < Pow2(4 * k)
    ensures |HexText(n)| <= k
  {
    if n >= 16 {
      assert Pow2(4) == 16;
      if k == 1 {
      } else {
        Pow2Sum(4, 4 * (k - 1));
        assert Pow2(4 * k) == 16 * Pow2(4 * (k - 1));
        HexTextLength(n / 16, k - 1);
      }
    }
  }

  lemma HexDigitValue(d: nat)
    requires d < 16
    ensures DigitValue(HexDigit(d)) == d
  {
  }

  lemma {:induction false} HexTextDigits(n: nat)
    ensures forall i :: 0 <= i < |HexText(n)| ==> DigitValue(HexText(n)[i]) >= 0
    ensures Value(HexText(n)) == n
  {
    HexDigitValue(n % 16);
    var t := HexText(n);
    if n < 16 {
      assert t == [HexDigit(n)];
      assert t[..0] == "";
    } else {
      HexTextDigits(n / 16);
      assert t == HexText(n / 16) + [HexDigit(n % 16)];
      assert t[..|t| - 1] == HexText(n / 16);
      assert t[|t| - 1] == HexDigit(n % 16);
    }
  }

  lemma {:induction false} AllDigits(s: string)
    requires forall i :: 0 <= i < |s| ==> DigitValue(s[i]) >= 0
    ensures Digits(s) == s
  {
    if s != "" {
      AllDigits(s[1..]);
    }
  }

  lemma DigitsStartAtOnce(t: string)
    requires t != "" && forall i :: 0 <= i < |t| ==> DigitValue(t[i]) >= 0
    ensures SkipSpace(t) == t && SkipPrefix(t) == t && t[0] != '-' && t[0] != '+'
  {
    assert DigitValue(t[0]) >= 0;
    if |t| >= 2 {
      assert DigitValue(t[1]) >= 0;
    }
  }

  /** Nothing precedes the digits of a printed id, so parsing starts at once. */
  lemma {:induction false} PlainDigitsParse(t: string)
    requires t != "" && forall i :: 0 <= i < |t| ==> DigitValue(t[i]) >= 0
    ensures Value(t) < W64 ==> Strtoul16(t) == Value(t)
  {
    hide Digits, Value, DigitValue, SkipSpace, SkipPrefix;
    DigitsStartAtOnce(t);
    AllDigits(t);
  }

  /** Every id survives being printed, echoed and parsed. */
  lemma {:induction false} IdTextRoundTrip(id: Word)
    ensures IdText(id) == HexText(id) && 1 <= |IdText(id)| <= 8
    ensures ParseId(IdText(id)) == id
  {
    assert |HexText(id)| <= 8 by {
      Widths();
      HexTextLength(id, 8);
    }
    var t := HexText(id);
    assert Strtoul16(t) == id by {
      HexTextDigits(id);
      PlainDigitsParse(t);
    }
    assert id % W32 == id;
  }

  /** Ids print differently exactly when they differ. */
  lemma IdTextInjective(a: Word, b: Word)
    ensures IdText(a) == IdText(b) <==> a == b
  {
    IdTextRoundTrip(a);
    IdTextRoundTrip(b);
  }

  // ---------------------------------------------------------------------------------------------
  // The texts by themselves: what is printed and what is read, in terms of character codes
  // ---------------------------------------------------------------------------------------------

  predicate IsHex(c: char) {
    '0' <= c <= '9' || 'a' <= c <= 'f' || 'A' <= c <= 'F'
  }

  predicate AllHex(t: string) {
    forall i :: 0 <= i < |t| ==> IsHex(t[i])
  }

  /** The number that a text in base 16 stands for: the digits have codes from 48, the letters from 97 in
      lower case and from 65 in upper case. */
  function HexNumber(t: string): nat
    requires AllHex(t)
  {
    if t == "" then 0
    else
      var c := t[|t| - 1] as int;
      16 * HexNumber(t[..|t| - 1]) + if c < 58 then c - 48 else if c < 97 then c - 55 else c - 87
  }

  /** Lower-case digits without leading zeros. */
  predicate PlainHex(t: string) {
    && t != "" && AllHex(t) && (t[0] == '0' ==> |t| == 1)
    && forall i :: 0 <= i < |t| ==> !('A' <= t[i] <= 'F')
  }

  lemma {:induction false} HexTextIsPlain(n: nat)
    ensures PlainHex(HexText(n)) && HexNumber(HexText(n)) == n
    ensures n > 0 ==> HexText(n)[0] != '0'
  {
    var t := HexText(n);
    HexCode(n % 16);
    if n < 16 {
      assert t == [HexDigit(n)] && t[..0] == "";
    } else {
      HexTextIsPlain(n / 16);
      assert t[..|t| - 1] == HexText(n / 16);
    }
  }

  lemma HexCode(d: nat)
    requires d < 16
    ensures HexDigit(d) as int == if d < 10 then 48 + d else 87 + d
  {
  }

  lemma {:induction false} PlainHexIsUnique(a: string, b: string)
    requires PlainHex(a) && PlainHex(b) && HexNumber(a) == HexNumber(b)
    ensures a == b
  {
    var a', b' := a[..|a| - 1], b[..|b| - 1];
    LastDigit(a);
    LastDigit(b);
    assert a[|a| - 1] == b[|b| - 1];
    if a' == "" || b' == "" {
      ShortIffSmall(a);
      ShortIffSmall(b);
    } else {
      PlainHexIsUnique(a', b');
    }
    assert a == a' + [a[|a| - 1]] && b == b' + [b[|b| - 1]];
  }

  lemma LastDigit(t: string)
    requires PlainHex(t)
    ensures var c := t[|t| - 1] as int;
      && HexNumber(t) % 16 == (if c < 58 then c - 48 else c - 87)
      && HexNumber(t) / 16 == HexNumber(t[..|t| - 1])
    ensures |t| > 1 ==> PlainHex(t[..|t| - 1])
  {
    var c := t[|t| - 1] as int;
    assert IsHex(t[|t| - 1]);
    ModUnique(HexNumber(t), 16, HexNumber(t[..|t| - 1]), if c < 58 then c - 48 else c - 87);
  }

  lemma {:induction false} ShortIffSmall(t: string)
    requires PlainHex(t)
    ensures |t| == 1 <==> HexNumber(t) < 16
  {
    LastDigit(t);
    if |t| > 1 {
      LeadsNonZero(t[..|t| - 1]);
    }
  }

  lemma {:induction false} LeadsNonZero(t: string)
    requires PlainHex(t) && t[0] != '0'
    ensures HexNumber(t) > 0
  {
    if |t| == 1 {
      assert t[..0] == "";
      assert IsHex(t[0]);
    } else {
      LeadsNonZero(t[..|t| - 1]);
    }
  }

  /** The text of an id is the one text in lower-case base 16 without leading zeros that stands for it, as
      `%x` prints it (section 7.21.6.1 of ISO/IEC 9899:2011). */
  lemma IdTextExactly(id: Word, t: string)
    ensures t == IdText(id) <==> PlainHex(t) && HexNumber(t) == id
  {
    hide HexNumber, HexText, IdText, ParseId;
    IdTextRoundTrip(id);
    HexTextIsPlain(id);
    if PlainHex(t) && HexNumber(t) == id {
      PlainHexIsUnique(t, HexText(id));
    }
  }

  predicate AllSpace(w: string) {
    forall i :: 0 <= i < |w| ==> w[i] as int == 32 || 9 <= w[i] as int <= 13
  }

  lemma {:induction false} SpaceIsSkipped(w: string, t: string)
    requires AllSpace(w) && (t == "" || !IsSpace(t[0]))
    ensures SkipSpace(w + t) == t
  {
    if w == "" {
      assert w + t == t;
    } else {
      assert IsSpace(w[0]);
      assert (w + t)[1..] == w[1..] + t;
      SpaceIsSkipped(w[1..], t);
    }
  }

  lemma {:induction false} DigitsStop(t: string, r: string)
    requires AllHex(t) && (r == "" || !IsHex(r[0]))
    ensures Digits(t + r) == t
  {
    if t == "" {
      assert t + r == r;
    } else {
      assert IsHex(t[0]);
      assert (t + r)[1..] == t[1..] + r;
      DigitsStop(t[1..], r);
      assert t == [t[0]] + t[1..];
    }
  }

  lemma {:induction false} ValueIsHexNumber(t: string)
    requires AllHex(t)
    ensures (forall i :: 0 <= i < |t| ==> DigitValue(t[i]) >= 0) && Value(t) == HexNumber(t)
  {
    assert forall i :: 0 <= i < |t| ==> IsHex(t[i]);
    if t != "" {
      ValueIsHexNumber(t[..|t| - 1]);
    }
  }

  predicate IsSign(sign: string) {
    sign == "" || sign == "+" || sign == "-"
  }

  predicate IsPrefix(prefix: string) {
    prefix == "" || prefix == "0x" || prefix == "0X"
  }

  lemma PrefixIsSkipped(prefix: string, t: string, r: string)
    requires IsPrefix(prefix) && t != "" && AllHex(t)
    requires prefix == "" && t == "0" ==> r == "" || (r[0] != 'x' && r[0] != 'X')
    ensures SkipPrefix(prefix + t + r) == t + r
  {
    var s := prefix + t + r;
    assert IsHex(t[0]);
    if prefix == "" {
      assert s == t + r;
      if |t| >= 2 {
        assert IsHex(t[1]);
      }
    } else {
      assert s[2..] == t + r;
    }
  }

  lemma SignIsSkipped(w: string, sign: string, u: string)
    requires AllSpace(w) && IsSign(sign) && u != "" && IsHex(u[0])
    ensures AfterSign(w + sign + u) == u && (IsNegative(w + sign + u) <==> sign == "-")
  {
    assert w + sign + u == w + (sign + u);
    assert (sign + u)[0] == if sign == "" then u[0] else sign[0];
    SpaceIsSkipped(w, sign + u);
    if sign != "" {
      assert (sign + u)[1..] == u;
    } else {
      assert sign + u == u;
    }
  }

  /** A reply's id is read as base-16 numbers are: leading space, a sign and `0x` may come first, the digits
      go on as far as they can in either case, and what is too large for 64 bits saturates (section 7.22.1.4
      of ISO/IEC 9899:2011). */
  lemma StrtoulReads(w: string, sign: string, prefix: string, t: string, r: string)
    requires AllSpace(w) && IsSign(sign) && IsPrefix(prefix) && t != "" && AllHex(t)
    requires r == "" || !IsHex(r[0])
    requires prefix == "" && t == "0" ==> r == "" || (r[0] != 'x' && r[0] != 'X')
    ensures Strtoul16(w + sign + (prefix + t + r)) ==
      var v := HexNumber(t);
      if v >= W64 then W64 - 1 else if sign == "-" && v > 0 then W64 - v else v
  {
    hide AfterSign, IsNegative, SkipPrefix, Digits, Value, HexNumber, AllSpace;
    var u := prefix + t + r;
    assert IsHex(t[0]);
    assert u[0] == if prefix == "" then t[0] else '0';
    SignIsSkipped(w, sign, u);
    PrefixIsSkipped(prefix, t, r);
    DigitsStop(t, r);
    ValueIsHexNumber(t);
  }

  lemma NegatedRemainder(v: nat)
    requires 0 < v < W64
    ensures (W64 - v) % W32 == (W32 - v % W32) % W32
  {
    var q, r := v / W32, v % W32;
    assert v == q * W32 + r;
    if r == 0 {
      ModUnique(W64 - v, W32, W32 - q, 0);
    } else {
      ModUnique(W64 - v, W32, W32 - q - 1, W32 - r);
    }
  }

  /** Exactly which texts decode to 0, which is a real id: those whose number is a multiple of 2^32 and
      small enough not to saturate, whatever the sign. */
  lemma DecodesToZeroExactly(s: string)
    ensures ParseId(s) == 0 <==> Magnitude(AfterSign(s)) < W64 && Magnitude(AfterSign(s)) % W32 == 0
  {
    var v := Magnitude(AfterSign(s));
    if 0 < v < W64 {
      NegatedRemainder(v);
    }
  }

  /** Exactly which texts decode to the id that marks messages not yet sent: those that saturate, and
      those whose number is one below a multiple of 2^32, or one above it after a minus sign. */
  lemma DecodesToInvalidExactly(s: string)
    ensures ParseId(s) == INVALID_ID <==>
      var v := Magnitude(AfterSign(s));
      v >= W64 || v % W32 == if IsNegative(s) then 1 else W32 - 1
  {
    var v := Magnitude(AfterSign(s));
    if 0 < v < W64 {
      NegatedRemainder(v);
    }
  }

  /** Texts without any digit in the place of the number are among the first: the parser reports no
      error. */
  lemma GarbageDecodesToZero(s: string)
    requires Digits(SkipPrefix(AfterSign(s))) == ""
    ensures ParseId(s) == 0 == IdAt(0)
  {
  }

  /** A short text that decodes to the id that marks messages not yet sent. */
  lemma MinusOneDecodesToInvalid()
    ensures ParseId("-1") == INVALID_ID
  {
    var s := "-1";
    assert SkipSpace(s) == s;
    assert s[1..] == "1";
    assert SkipPrefix("1") == "1";
    AllDigits("1");
    assert Value("1") == 1 by {
      assert "1"[..0] == "";
    }
    assert Strtoul16(s) == W64 - 1;
  }
}
