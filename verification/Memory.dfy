/** The C library calls that the sources use to resize and shift arrays. */
module Memory {

  /** `realloc`: a new block of `n` elements that starts with as much of `a` as fits. */
  method Realloc<T(0)>(a: array<T>, n: nat) returns (b: array<T>)
    ensures fresh(b) && b.Length == n
    ensures forall i :: 0 <= i < n && i < a.Length ==> b[i] == a[i]
  {
    b := new T[n];
    forall i | 0 <= i < n && i < a.Length {
      b[i] := a[i];
    }
  }

  /** `memmove(a + at, a + at + 1, n)`: shifts `n` elements down by one place. */
  method MoveDown<T>(a: array<T>, at: nat, n: nat)
    requires at + n < a.Length
    modifies a
    ensures forall i :: at <= i < at + n ==> a[i] == old(a[i + 1])
    ensures forall i :: 0 <= i < at || at + n <= i < a.Length ==> a[i] == old(a[i])
  {
    forall i | at <= i < at + n {
      a[i] := a[i + 1];
    }
  }

  /** `memcpy(a + at, src, |src|)`. */
  method Copy<T>(a: array<T>, at: nat, src: seq<T>)
    requires at + |src| <= a.Length
    modifies a
    ensures a[..] == old(a[..at]) + src + old(a[at + |src|..])
  {
    forall i | 0 <= i < |src| {
      a[at + i] := src[i];
    }
  }
}
