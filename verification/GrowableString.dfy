/** The growable NUL-terminated string of `str.c`, on which outgoing texts are built. */
module GrowableString {
  import opened Bits
  import opened Memory

  /** The capacity that `str_expect` leaves behind when asked for room for `n` more characters.
      All arithmetic is on 32-bit unsigned integers. */
  function Grown(capacity: Word, len: Word, n: Word): Word {
    var need := (len + n + 1) % W32;
    if need < capacity then capacity
    else if need < 2048 then need * 2
    else RoundUp32(need, 2047)
  }

  /** Whether appending `n` characters stays inside memory. */
  predicate Fits(capacity: Word, len: Word, n: Word) {
    len + n + 1 < capacity || len + n + 1 + 2047 < W32
  }

  /** The buffer that `str_expect` returns has room for the characters and their terminator
      exactly when `Fits` holds; otherwise one of the two 32-bit additions wrapped. */
  lemma GrownSuffices(capacity: Word, len: Word, n: Word)
    requires len < capacity
    ensures Fits(capacity, len, n) <==> len + n < Grown(capacity, len, n)
  {
    hide RoundUp32;
  }

  /** Capacity never shrinks, and a new block is never smaller than the need nor larger than
      twice the need or the need rounded up by one page. */
  lemma GrowthIsBounded(capacity: Word, len: Word, n: Word)
    requires len < capacity && Fits(capacity, len, n)
    ensures var need := len + n + 1;
      var c := Grown(capacity, len, n);
      && capacity <= c
      && (need < capacity ==> c == capacity)
      && (capacity <= need < 2048 ==> c == 2 * need)
      && (need >= capacity ==> need <= c && (c <= 2 * need || c <= need + 2047))
  {
    hide RoundUp32;
  }

  /** A large string grows to a whole number of 2048-byte pages. */
  lemma LargeStringsArePaged(capacity: Word, len: Word, n: Word)
    requires Fits(capacity, len, n)
    requires capacity <= len + n + 1 && 2048 <= len + n + 1
    ensures Grown(capacity, len, n) % 2048 == 0
    ensures len + n + 1 <= Grown(capacity, len, n) < len + n + 1 + 2048
  {
    var need := len + n + 1;
    assert need % W32 == need;
    RoundUp32Pages(need);
  }

  class Str {
    var capacity: Word
    var len: Word
    var buf: array<char>

    ghost var Repr: set<object>

    ghost predicate Valid()
      reads this, Repr
      ensures Valid() ==> this in Repr
    {
      && this in Repr && buf in Repr
      && buf.Length == capacity && len < capacity && buf[len] == '\0'
    }

    ghost function Contents(): string
      requires Valid()
      reads this, Repr
    {
      buf[..len]
    }

    /** `str_alloc`. */
    constructor (size: Word)
      requires size + 1 < W32
      ensures Valid() && fresh(Repr)
      ensures Contents() == "" && capacity == size + 1
    {
      capacity := size + 1;
      len := 0;
      buf := new char[size + 1];
      Repr := {this, buf};
      new;
      buf[0] := '\0';
    }

    /** `str_expect`, wrap-around included: when the size wraps, the new block can be smaller than
        the old one. */
    method Expect(n: Word)
      requires Valid()
      modifies this
      ensures len == old(len)
      ensures capacity == Grown(old(capacity), len, n) == buf.Length
      ensures this in Repr && buf in Repr && old(Repr) <= Repr && fresh(Repr - old(Repr))
      ensures forall i :: 0 <= i < buf.Length && i < old(capacity) ==> buf[i] == old(buf[i])
    {
      var need: Word := (len + n + 1) % W32;
      if need < capacity {
        return;
      }
      if need < 2048 {
        need := need * 2;
      } else {
        need := RoundUp32(need, 2047);
      }
      buf := Realloc(buf, need);
      capacity := need;
      Repr := Repr + {buf};
    }

    /** `str_cat`. `src` holds the characters before the terminator. The precondition is exactly
        what keeps the copy inside the buffer, by `GrownSuffices`. */
    method Cat(src: string)
      requires Valid()
      requires |src| < W32 && Fits(capacity, len, |src|)
      modifies Repr
      ensures Valid() && fresh(Repr - old(Repr))
      ensures Contents() == old(Contents()) + src
      ensures capacity == Grown(old(capacity), old(len), |src|) >= old(capacity)
    {
      GrownSuffices(capacity, len, |src|);
      GrowthIsBounded(capacity, len, |src|);
      var before := buf[..len];
      Expect(|src|);
      assert buf[..len] == before;
      Copy(buf, len, src);
      len := len + |src|;
      assert buf[..len] == before + src;
      buf[len] := '\0';
      assert buf[..len] == before + src;
    }

    /** `str_clear`. */
    method Clear()
      requires Valid()
      modifies Repr
      ensures Valid() && Repr == old(Repr)
      ensures Contents() == "" && capacity == old(capacity)
    {
      len := 0;
      buf[0] := '\0';
    }

    /** `str_len`. */
    method Len() returns (n: Word)
      requires Valid()
      ensures n == |Contents()|
    {
      n := len;
    }
  }
}
