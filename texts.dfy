/**
 * The string operations the option parsers are built on: str::split,
 * str::split_once, i64's FromStr and the decimal rendering of a number.
 */
module Texts {
  import opened Wrappers

  /** Position of the first `c` in `s`. */
  function IndexOf(s: string, c: char): (i: nat)
    requires c in s
    ensures i < |s| && s[i] == c && c !in s[..i]
  {
    if s[0] == c then 0
    else
      assert s == [s[0]] + s[1..];
      var j := IndexOf(s[1..], c);
      assert s[..j + 1] == [s[0]] + s[1..][..j];
      j + 1
  }

  /** str::split: the pieces between the occurrences of `c`; always at least one piece. */
  function Split(s: string, c: char): (pieces: seq<string>)
    ensures |pieces| >= 1
    decreases |s|
  {
    if c !in s then [s]
    else
      var i := IndexOf(s, c);
      [s[..i]] + Split(s[i + 1..], c)
  }

  /** No piece holds `c` or is longer than the text; there is one piece exactly when `c` does not occur. */
  lemma {:induction false} SplitPieces(s: string, c: char)
    ensures forall i :: 0 <= i < |Split(s, c)| ==> c !in Split(s, c)[i] && |Split(s, c)[i]| <= |s|
    ensures |Split(s, c)| == 1 <==> c !in s
    decreases |s|
  {
    if c in s {
      var i := IndexOf(s, c);
      SplitPieces(s[i + 1..], c);
      assert Split(s, c) == [s[..i]] + Split(s[i + 1..], c);
    }
  }

  /** The pieces put back together with `c` between them. */
  function Join(pieces: seq<string>, c: char): string
    requires |pieces| >= 1
  {
    if |pieces| == 1 then pieces[0] else pieces[0] + [c] + Join(pieces[1..], c)
  }

  /** Splitting and joining again gives the text back. */
  lemma {:induction false} SplitJoin(s: string, c: char)
    ensures Join(Split(s, c), c) == s
    decreases |s|
  {
    if c in s {
      var i := IndexOf(s, c);
      var tail := s[i + 1..];
      var pieces := Split(s, c);
      assert pieces == [s[..i]] + Split(tail, c);
      assert pieces[0] == s[..i] && pieces[1..] == Split(tail, c);
      assert Join(pieces, c) == s[..i] + [c] + Join(Split(tail, c), c);
      SplitJoin(tail, c);
      assert s == s[..i] + [c] + tail;
    }
  }

  /** A character of one of the pieces is a character of the joined text. */
  lemma {:induction false} JoinHolds(pieces: seq<string>, c: char, i: nat, x: char)
    requires |pieces| >= 1 && i < |pieces| && x in pieces[i]
    ensures x in Join(pieces, c)
    decreases |pieces|
  {
    if |pieces| > 1 {
      if i > 0 {
        JoinHolds(pieces[1..], c, i - 1, x);
      }
    }
  }

  /** Joining pieces that hold no `c` and splitting again gives the pieces back. */
  lemma {:induction false} JoinSplit(pieces: seq<string>, c: char)
    requires |pieces| >= 1
    requires forall i :: 0 <= i < |pieces| ==> c !in pieces[i]
    ensures Split(Join(pieces, c), c) == pieces
    decreases |pieces|
  {
    if |pieces| > 1 {
      var rest := pieces[1..];
      assert forall i :: 0 <= i < |rest| ==> rest[i] == pieces[i + 1];
      JoinSplit(rest, c);
      var head, tail := pieces[0], Join(rest, c);
      var s := Join(pieces, c);
      assert s == head + [c] + tail;
      IndexAfter(head, tail, c);
      assert Split(s, c) == [head] + Split(tail, c);
      assert pieces == [head] + rest;
    }
  }

  /** In a c-free text, `c` and a rest, the first `c` follows the text. */
  lemma IndexAfter(a: string, b: string, c: char)
    requires c !in a
    ensures c in a + [c] + b
    ensures IndexOf(a + [c] + b, c) == |a|
    ensures (a + [c] + b)[..|a|] == a && (a + [c] + b)[|a| + 1..] == b
  {
    var s := a + [c] + b;
    assert s[|a|] == c;
    IndexOfFirst(s, c, |a|);
    assert forall k :: 0 <= k < |a| ==> s[k] == a[k] && s[k] != c;
  }

  /** str::split_once: the text before and after the first `c`, if there is one. */
  function SplitOnce(s: string, c: char): (r: Option<(string, string)>)
    ensures r.None? <==> c !in s
    ensures r.Some? ==> s == r.value.0 + [c] + r.value.1 && c !in r.value.0
  {
    if c !in s then None
    else
      var i := IndexOf(s, c);
      assert s == s[..i] + [c] + s[i + 1..];
      Some((s[..i], s[i + 1..]))
  }

  /** IndexOf finds no later position than any occurrence. */
  lemma {:induction false} IndexOfFirst(s: string, c: char, j: nat)
    requires j < |s| && s[j] == c
    ensures IndexOf(s, c) <= j
  {
    if s[0] != c {
      IndexOfFirst(s[1..], c, j - 1);
    }
  }

  /** The only way to write `s` as a c-free text, `c`, and a rest is the one SplitOnce returns. */
  lemma SplitOnceUnique(a: string, b: string, c: char)
    requires c !in a
    ensures SplitOnce(a + [c] + b, c) == Some((a, b))
  {
    IndexAfter(a, b, c);
  }

  /** Every piece is `<key>=<text>`. */
  predicate AllEntries(pieces: seq<string>) {
    forall i :: 0 <= i < |pieces| ==> SplitOnce(pieces[i], '=').Some?
  }

  /** The key of a `<key>=<text>` piece. */
  function EntryKey(piece: string): string
    requires SplitOnce(piece, '=').Some?
  {
    SplitOnce(piece, '=').value.0
  }

  /** The value text of a `<key>=<text>` piece. */
  function EntryText(piece: string): string
    requires SplitOnce(piece, '=').Some?
  {
    SplitOnce(piece, '=').value.1
  }

  /** No piece after the i-th has its key. */
  predicate LastOfKey(pieces: seq<string>, i: nat)
    requires AllEntries(pieces) && i < |pieces|
  {
    forall j :: i < j < |pieces| ==> EntryKey(pieces[j]) != EntryKey(pieces[i])
  }

  predicate IsDigit(ch: char) { '0' <= ch <= '9' }

  /** The value of a run of decimal digits. */
  function DigitsValue(ds: string): nat
    requires forall i :: 0 <= i < |ds| ==> IsDigit(ds[i])
  {
    if ds == [] then 0
    else
      var last := ds[|ds| - 1];
      assert IsDigit(last);
      DigitsValue(ds[..|ds| - 1]) * 10 + (last as int - '0' as int)
  }

  const I64Min: int := -0x8000_0000_0000_0000
  const I64Max: int := 0x7FFF_FFFF_FFFF_FFFF

  /** A decimal integer: digits after the first character, which is a digit or a sign followed by more. */
  predicate IntegerText(s: string) {
    && |s| > 0
    && (forall i :: 0 < i < |s| ==> IsDigit(s[i]))
    && (IsDigit(s[0]) || ((s[0] == '+' || s[0] == '-') && |s| > 1))
  }

  /** The value of a decimal integer, negated after a '-'. */
  function SignedValue(s: string): int
    requires IntegerText(s)
  {
    if IsDigit(s[0]) then DigitsValue(s)
    else if s[0] == '-' then 0 - DigitsValue(s[1..])
    else DigitsValue(s[1..])
  }

  /**
   * i64's FromStr: an optional '+' or '-', then one or more ASCII digits, and
   * a value that fits in 64 bits; anything else is an error.
   */
  function ParseI64(s: string): (r: Option<int>)
    ensures r.Some? ==> I64Min <= r.value <= I64Max
    ensures s == [] ==> r.None?
    ensures r.Some? <==> IntegerText(s) && I64Min <= SignedValue(s) <= I64Max
    ensures r.Some? ==> r.value == SignedValue(s)
  {
    var (negative, digits) :=
      if |s| > 0 && (s[0] == '+' || s[0] == '-') then (s[0] == '-', s[1..]) else (false, s);
    if digits == [] || !(forall i :: 0 <= i < |digits| ==> IsDigit(digits[i])) then None
    else
      var v: int := if negative then 0 - DigitsValue(digits) else DigitsValue(digits);
      if I64Min <= v <= I64Max then Some(v) else None
  }

  /** The decimal digits of `n`, as Display writes them. */
  function Dec(n: nat): (s: string)
    ensures |s| >= 1 && forall i :: 0 <= i < |s| ==> IsDigit(s[i])
  {
    var last := ['0' + (n % 10) as char];
    if n < 10 then last else Dec(n / 10) + last
  }

  /** Reading back the digits Dec writes gives the number. */
  lemma {:induction false} DecValue(n: nat)
    ensures DigitsValue(Dec(n)) == n
  {
    if n >= 10 {
      DecValue(n / 10);
      var s := Dec(n);
      assert s[..|s| - 1] == Dec(n / 10);
    }
  }

  /** Dec is one-to-one. */
  lemma DecInjective(m: nat, n: nat)
    ensures Dec(m) == Dec(n) ==> m == n
  {
    DecValue(m);
    DecValue(n);
  }

  /** Every 64-bit integer written in decimal, with a '-' when negative, parses back to itself. */
  lemma ParseI64OfDec(n: int)
    requires I64Min <= n <= I64Max
    ensures n >= 0 ==> ParseI64(Dec(n)) == Some(n)
    ensures n < 0 ==> ParseI64("-" + Dec(-n)) == Some(n)
  {
    if n >= 0 {
      DecValue(n);
      assert Dec(n)[0] != '+' && Dec(n)[0] != '-';
    } else {
      DecValue(-n);
      assert ("-" + Dec(-n))[1..] == Dec(-n);
    }
  }
}
