/** Octets, C strings held in fixed arrays, and the interest bits of the selector. */
module Bytes {

  type byte = x: int | 0 <= x < 256

  /** OP_READ and OP_WRITE as two flags; OP_NOOP is neither. */
  datatype Interest = Interest(read: bool, write: bool)

  const NOOP := Interest(false, false)
  const READ := Interest(true, false)
  const WRITE := Interest(false, true)
  const BOTH := Interest(true, true)

  /** Counters are 32 bits wide and wrap around. */
  const U32 := 0x1_0000_0000

  function Zeros(n: nat): (z: seq<byte>)
    ensures |z| == n && forall i :: 0 <= i < n ==> z[i] == 0
  {
    seq(n, i => 0)
  }

  /** The contents of a zeroed array of size `n` after `s` was written at its start. */
  function Pad(s: seq<byte>, n: nat): (p: seq<byte>)
    requires |s| <= n
    ensures |p| == n && p[..|s|] == s
    ensures forall i :: |s| <= i < n ==> p[i] == 0
  {
    s + Zeros(n - |s|)
  }

  lemma PadExtends(s: seq<byte>, n: nat, c: byte)
    requires |s| < n
    ensures Pad(s, n)[|s| := c] == Pad(s + [c], n)
  {
    var l, r := Pad(s, n)[|s| := c], Pad(s + [c], n);
    forall i | 0 <= i < n ensures l[i] == r[i] {
      if i < |s| { assert (s + [c])[i] == s[i]; }
    }
  }

  /** An assignment to an array element; one outside the array is dropped. */
  function Store(a: seq<byte>, i: int, b: byte): (r: seq<byte>)
    ensures |r| == |a|
  {
    if 0 <= i < |a| then a[i := b] else a
  }

  ghost predicate NulFree(s: seq<byte>) {
    forall i :: 0 <= i < |s| ==> s[i] != 0
  }

  /** The C string that starts at the first element of `s`: what precedes the first NUL, or all of `s`. */
  function CString(s: seq<byte>): (r: seq<byte>)
    ensures |r| <= |s| && r == s[..|r|]
    ensures NulFree(r)
    ensures |r| < |s| ==> s[|r|] == 0
  {
    if s == [] || s[0] == 0 then [] else [s[0]] + CString(s[1..])
  }

  /** A NUL-free name followed by a NUL, or by the end of the array, is read back unchanged. */
  lemma CStringOf(name: seq<byte>, s: seq<byte>)
    requires NulFree(name) && |name| <= |s| && s[..|name|] == name
    requires |name| < |s| ==> s[|name|] == 0
    ensures CString(s) == name
  {
    var r := CString(s);
    if |r| < |name| {
      assert false;
    } else if |name| < |r| {
      assert false;
    }
  }

  lemma CStringOfPad(name: seq<byte>, n: nat)
    requires NulFree(name) && |name| <= n
    ensures CString(Pad(name, n)) == name
  {
    CStringOf(name, Pad(name, n));
  }
}
