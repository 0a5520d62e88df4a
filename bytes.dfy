/**
 * Bytes as they cross the plugin boundary, and the UTF-8 well-formedness check
 * that `std::str::from_utf8` performs (the table of section 4 of RFC 3629).
 */
module Bytes {

  type byte = x: int | 0 <= x < 256
  type u32 = x: int | 0 <= x < 0x1_0000_0000
  type u64 = x: int | 0 <= x < 0x1_0000_0000_0000_0000

  predicate IsCont(b: byte) { 0x80 <= b <= 0xBF }

  /** Length of the well-formed UTF-8 sequence that starts `b`, or 0 when none does. */
  function SeqLen(b: seq<byte>): (n: nat)
    requires |b| > 0
    ensures n <= 4 && (n > 0 ==> n <= |b|)
  {
    var b0 := b[0];
    if b0 < 0x80 then 1
    else if 0xC2 <= b0 <= 0xDF then
      (if |b| >= 2 && IsCont(b[1]) then 2 else 0)
    else if b0 == 0xE0 then
      (if |b| >= 3 && 0xA0 <= b[1] <= 0xBF && IsCont(b[2]) then 3 else 0)
    else if (0xE1 <= b0 <= 0xEC) || (0xEE <= b0 <= 0xEF) then
      (if |b| >= 3 && IsCont(b[1]) && IsCont(b[2]) then 3 else 0)
    else if b0 == 0xED then
      (if |b| >= 3 && 0x80 <= b[1] <= 0x9F && IsCont(b[2]) then 3 else 0)
    else if b0 == 0xF0 then
      (if |b| >= 4 && 0x90 <= b[1] <= 0xBF && IsCont(b[2]) && IsCont(b[3]) then 4 else 0)
    else if 0xF1 <= b0 <= 0xF3 then
      (if |b| >= 4 && IsCont(b[1]) && IsCont(b[2]) && IsCont(b[3]) then 4 else 0)
    else if b0 == 0xF4 then
      (if |b| >= 4 && 0x80 <= b[1] <= 0x8F && IsCont(b[2]) && IsCont(b[3]) then 4 else 0)
    else 0
  }

  /** The byte string is a concatenation of well-formed UTF-8 sequences. */
  predicate IsUtf8(b: seq<byte>)
    decreases |b|
  {
    b == [] || (SeqLen(b) > 0 && IsUtf8(b[SeqLen(b)..]))
  }

  /** Every ASCII byte string is valid UTF-8. */
  lemma {:induction false} AsciiIsUtf8(b: seq<byte>)
    requires forall i :: 0 <= i < |b| ==> b[i] < 0x80
    ensures IsUtf8(b)
    decreases |b|
  {
    if b != [] {
      assert SeqLen(b) == 1;
      AsciiIsUtf8(b[1..]);
    }
  }

  /** Concatenating two UTF-8 byte strings gives UTF-8. */
  lemma {:induction false} ConcatIsUtf8(a: seq<byte>, b: seq<byte>)
    requires IsUtf8(a) && IsUtf8(b)
    ensures IsUtf8(a + b)
    decreases |a|
  {
    if a != [] {
      var n := SeqLen(a);
      assert (a + b)[..n] == a[..n];
      SeqLenPrefix(a, a + b);
      assert (a + b)[n..] == a[n..] + b;
      ConcatIsUtf8(a[n..], b);
    } else {
      assert a + b == b;
    }
  }

  /** SeqLen only looks at the first (at most four) bytes, so it is stable under extension. */
  lemma SeqLenPrefix(a: seq<byte>, c: seq<byte>)
    requires |a| > 0 && SeqLen(a) > 0
    requires |c| >= |a| && c[..|a|] == a
    ensures SeqLen(c) == SeqLen(a)
  {
    assert forall i :: 0 <= i < |a| ==> c[i] == a[i] by {
      forall i | 0 <= i < |a| ensures c[i] == a[i] {
        assert c[..|a|][i] == c[i];
      }
    }
  }
}
