/** Reassembly of an HTTP response body from the chunks that libcurl hands over. */
module ResponseBuffer {
  import opened Bits
  import opened Memory

  /** The capacity after `on_curl_write` has made room for `n` more bytes, in 64-bit `size_t`. */
  function Grown(capacity: nat, count: nat, n: nat): nat {
    var needed := (count + n + 1) % W64;
    if needed <= capacity then capacity
    else RoundUp64(needed, 4093)
  }

  predicate Fits(capacity: nat, count: nat, n: nat) {
    count + n + 1 <= capacity || count + n + 1 + 4093 < W64
  }

  /** A chunk and its terminator fit exactly when neither addition wraps past the capacity. */
  lemma GrownSuffices(capacity: nat, count: nat, n: nat)
    requires capacity < W64 && n < W64 && (count < capacity || count == capacity == 0)
    ensures Fits(capacity, count, n) <==> count + n < Grown(capacity, count, n)
  {
    hide RoundUp64;
  }

  /** Although 4093 is not an all-ones mask, every regrowth lands between what is needed and 4093
      bytes more. */
  lemma GrowthIsBounded(capacity: nat, count: nat, n: nat)
    requires Fits(capacity, count, n)
    requires capacity < W64 && n < W64 && (count < capacity || count == capacity == 0)
    ensures var needed := count + n + 1;
      var c := Grown(capacity, count, n);
      && capacity <= c < W64
      && (c == capacity || needed <= c <= needed + 4093)
  {
    hide RoundUp64;
  }

  /** A regrown capacity, wrapped or not, has no bit in common with 4093, and there is none without need. */
  lemma GrownIsMasked(capacity: nat, count: nat, n: nat)
    requires capacity < W64
    ensures var c := Grown(capacity, count, n);
      && (c == capacity || BitAnd(c, 4093) == 0)
      && (count + n + 1 <= capacity ==> c == capacity)
  {
    hide RoundUp64, BitAnd;
    var needed := (count + n + 1) % W64;
    if needed > capacity {
      RoundUp64Clears(needed, 4093);
    }
  }

  /** All the bytes of a sequence of chunks. */
  function Joined(chunks: seq<string>): string {
    if chunks == [] then "" else Joined(chunks[..|chunks| - 1]) + chunks[|chunks| - 1]
  }

  lemma {:induction false} JoinedPrefix(chunks: seq<string>, i: nat)
    requires i <= |chunks|
    ensures |Joined(chunks[..i])| <= |Joined(chunks)|
  {
    if i == |chunks| {
      assert chunks[..i] == chunks;
    } else {
      var rest := chunks[..|chunks| - 1];
      assert rest[..i] == chunks[..i];
      JoinedPrefix(rest, i);
    }
  }

  class ConnInfo {
    var data: array<char>
    var dataCapacity: nat
    var dataCount: nat

    ghost var Repr: set<object>

    ghost predicate Valid()
      reads this, Repr
      ensures Valid() ==> this in Repr
    {
      && this in Repr && data in Repr
      && data.Length == dataCapacity < W64
      && (dataCapacity == 0 ==> dataCount == 0)
      && (dataCapacity != 0 ==> dataCount < dataCapacity && data[dataCount] == '\0')
    }

    ghost function Text(): string
      requires Valid()
      reads this, Repr
    {
      data[..dataCount]
    }

    /** The zeroed record that a new request starts from. */
    constructor ()
      ensures Valid() && fresh(Repr) && Text() == "" && dataCapacity == 0
    {
      data := new char[0];
      dataCapacity := 0;
      dataCount := 0;
      Repr := {this, data};
    }

    /** The resize of `on_curl_write`, wrap-around included. */
    method MakeRoom(bytes: nat)
      requires Valid() && bytes < W64
      modifies this
      ensures dataCount == old(dataCount)
      ensures dataCapacity == Grown(old(dataCapacity), dataCount, bytes) == data.Length
      ensures this in Repr && data in Repr && old(Repr) <= Repr && fresh(Repr - old(Repr))
      ensures forall i :: 0 <= i < data.Length && i < old(dataCapacity) ==> data[i] == old(data[i])
    {
      var sizeNeeded := (dataCount + bytes + 1) % W64;
      if sizeNeeded > dataCapacity {
        dataCapacity := RoundUp64(sizeNeeded, 4093);
        data := Realloc(data, dataCapacity);
        Repr := Repr + {data};
      }
    }

    /** `on_curl_write`. The precondition is exactly what keeps the copy inside the block, by
        `GrownSuffices`. */
    method Write(chunk: string)
      requires Valid()
      requires |chunk| < W64 && Fits(dataCapacity, dataCount, |chunk|)
      modifies Repr
      ensures Valid() && dataCapacity > 0 && fresh(Repr - old(Repr))
      ensures Text() == old(Text()) + chunk
      ensures dataCapacity == Grown(old(dataCapacity), old(dataCount), |chunk|)
    {
      GrownSuffices(dataCapacity, dataCount, |chunk|);
      GrowthIsBounded(dataCapacity, dataCount, |chunk|);
      hide Grown;
      var before := data[..dataCount];
      MakeRoom(|chunk|);
      assert data[..dataCount] == before;
      Copy(data, dataCount, chunk);
      dataCount := dataCount + |chunk|;
      assert data[..dataCount] == before + chunk;
      data[dataCount] := '\0';
      assert data[..dataCount] == before + chunk;
    }

    /** One whole response: however libcurl cuts the body into chunks, the text is the same and the
        block is at most 4094 bytes longer than it. */
    method Receive(chunks: seq<string>)
      requires Valid() && Text() == "" && dataCapacity == 0
      requires |Joined(chunks)| + 4094 < W64
      modifies Repr
      ensures Valid()
      ensures Text() == Joined(chunks)
      ensures chunks != [] ==> |Text()| < dataCapacity <= |Text()| + 4094
    {
      for i := 0 to |chunks|
        invariant Valid() && fresh(Repr - old(Repr))
        invariant Text() == Joined(chunks[..i])
        invariant if i == 0 then dataCapacity == 0 else |Text()| < dataCapacity <= |Text()| + 4094
      {
        assert chunks[..i + 1][..i] == chunks[..i];
        JoinedPrefix(chunks, i + 1);
        GrowthIsBounded(dataCapacity, dataCount, |chunks[i]|);
        Write(chunks[i]);
      }
      assert chunks[..|chunks|] == chunks;
    }
  }
}
