/**
 * The few pieces of the Kotlin standard library that the screens' decision
 * logic depends on, written out so that their edge cases are explicit:
 * `String.split(":")`, `String.toIntOrNull()`, `Int.toString()` and
 * `String.trim()` with `Char.isWhitespace()`.
 */
module KotlinText {
  import opened Wrappers

  const IntMin: int := -0x8000_0000
  const IntMax: int := 0x7FFF_FFFF

  predicate InIntRange(n: int) { IntMin <= n <= IntMax }

  /** Kotlin's `Int`. */
  type Int32 = n: int | IntMin <= n <= IntMax

  // ---------------------------------------------------------------------------
  // split with a single one-character delimiter, no limit

  /** The inverse of splitting: the parts glued back with the delimiter between them. */
  function Join(parts: seq<string>, d: char): string
    requires |parts| >= 1
  {
    if |parts| == 1 then parts[0] else parts[0] + [d] + Join(parts[1..], d)
  }

  predicate NoDelimiter(part: string, d: char) {
    forall k :: 0 <= k < |part| ==> part[k] != d
  }

  /**
   * `s.split(d)`: every maximal run between delimiters, including empty runs
   * at either end (Kotlin keeps trailing empty strings, and `"".split(d)` is
   * `[""]`).
   */
  function Split(s: string, d: char): (parts: seq<string>)
    ensures |parts| >= 1
    ensures forall i :: 0 <= i < |parts| ==> NoDelimiter(parts[i], d)
    ensures Join(parts, d) == s
    ensures |parts| == 1 <==> NoDelimiter(s, d)
  {
    if s == [] then [""]
    else
      var rest := Split(s[1..], d);
      if s[0] == d then
        [""] + rest
      else
        [[s[0]] + rest[0]] + rest[1..]
  }

  /** Splitting a joined list of delimiter-free parts gives the parts back. */
  lemma {:induction false} SplitJoin(parts: seq<string>, d: char)
    requires |parts| >= 1
    requires forall i :: 0 <= i < |parts| ==> NoDelimiter(parts[i], d)
    ensures Split(Join(parts, d), d) == parts
  {
    if |parts| == 1 {
      SplitNoDelimiter(parts[0], d);
    } else {
      SplitJoin(parts[1..], d);
      SplitPrefix(parts[0], Join(parts[1..], d), d);
    }
  }

  lemma {:induction false} SplitNoDelimiter(s: string, d: char)
    requires NoDelimiter(s, d)
    ensures Split(s, d) == [s]
  {
    if s != [] {
      SplitNoDelimiter(s[1..], d);
    }
  }

  /** A delimiter-free head followed by the delimiter becomes the first part. */
  lemma {:induction false} SplitPrefix(head: string, tail: string, d: char)
    requires NoDelimiter(head, d)
    ensures Split(head + [d] + tail, d) == [head] + Split(tail, d)
  {
    if head == [] {
      assert head + [d] + tail == [d] + tail;
      assert ([d] + tail)[1..] == tail;
    } else {
      SplitPrefix(head[1..], tail, d);
      assert (head + [d] + tail)[1..] == head[1..] + [d] + tail;
      assert [head[0]] + head[1..] == head;
    }
  }

  // ---------------------------------------------------------------------------
  // decimal digits

  predicate IsDigit(c: char) { '0' <= c <= '9' }

  predicate AllDigits(s: string) {
    forall k :: 0 <= k < |s| ==> IsDigit(s[k])
  }

  function DigitValue(c: char): nat
    requires IsDigit(c)
  {
    c as int - '0' as int
  }

  function DigitChar(n: nat): (c: char)
    requires n < 10
    ensures IsDigit(c) && DigitValue(c) == n
  {
    ('0' as int + n) as char
  }

  /** The value of a digit string read left to right onto `acc`, as `toIntOrNull` accumulates it. */
  function Accumulate(s: string, acc: nat): nat
    requires AllDigits(s)
  {
    if s == [] then acc else Accumulate(s[1..], acc * 10 + DigitValue(s[0]))
  }

  lemma {:induction false} AccumulateAppend(a: string, b: string, acc: nat)
    requires AllDigits(a) && AllDigits(b)
    ensures AllDigits(a + b)
    ensures Accumulate(a + b, acc) == Accumulate(b, Accumulate(a, acc))
  {
    if a != [] {
      assert (a + b)[1..] == a[1..] + b;
      AccumulateAppend(a[1..], b, acc * 10 + DigitValue(a[0]));
    } else {
      assert a + b == b;
    }
  }

  /** The decimal digits of `n`, most significant first, without leading zeros. */
  function Digits(n: nat): (s: string)
    ensures |s| >= 1 && AllDigits(s)
    ensures |s| > 1 ==> s[0] != '0'
    ensures n < 10 ==> |s| == 1
  {
    if n < 10 then [DigitChar(n)] else Digits(n / 10) + [DigitChar(n % 10)]
  }

  lemma {:induction false} AccumulateDigits(n: nat)
    ensures Accumulate(Digits(n), 0) == n
  {
    if n >= 10 {
      AccumulateDigits(n / 10);
      AccumulateAppend(Digits(n / 10), [DigitChar(n % 10)], 0);
    }
  }

  /** `Int.toString()`: a minus sign for negative numbers, then the digits. */
  function IntToString(n: int): (s: string)
    ensures |s| >= 1
    ensures s[0] == '-' <==> n < 0
  {
    if n < 0 then "-" + Digits(-n) else Digits(n)
  }

  // ---------------------------------------------------------------------------
  // toIntOrNull

  function UnsignedValue(s: string): (r: Option<nat>)
    ensures r.Some? <==> s != [] && AllDigits(s)
  {
    if s != [] && AllDigits(s) then Some(Accumulate(s, 0)) else None
  }

  /** The text after an optional leading sign. */
  function UnsignedPart(s: string): string
    requires s != []
  {
    if s[0] == '-' || s[0] == '+' then s[1..] else s
  }

  /**
   * `String.toIntOrNull()` in radix 10: an optional leading `-` or `+` (a sign
   * alone is rejected), then one or more digits; `null` when anything else
   * occurs or the value leaves the 32-bit range.
   */
  function ToIntOrNull(s: string): (r: Option<int>)
    ensures r.Some? ==> InIntRange(r.value)
    ensures r.Some? ==> s != [] && AllDigits(UnsignedPart(s)) && UnsignedPart(s) != []
    ensures s != [] && AllDigits(s) ==>
      r == if Accumulate(s, 0) <= IntMax then Some(Accumulate(s, 0)) else None
    ensures |s| >= 2 && s[0] == '+' && AllDigits(s[1..]) ==>
      r == if Accumulate(s[1..], 0) <= IntMax then Some(Accumulate(s[1..], 0)) else None
    ensures |s| >= 2 && s[0] == '-' && AllDigits(s[1..]) ==>
      r == if -(Accumulate(s[1..], 0) as int) >= IntMin then Some(-(Accumulate(s[1..], 0) as int)) else None
  {
    if s == [] then None
    else if s[0] < '0' then
      if |s| == 1 then None
      else if s[0] == '-' then
        match UnsignedValue(s[1..])
        case Some(v) => if -(v as int) >= IntMin then Some(-(v as int)) else None
        case None => None
      else if s[0] == '+' then
        match UnsignedValue(s[1..])
        case Some(v) => if v <= IntMax then Some(v) else None
        case None => None
      else None
    else
      match UnsignedValue(s)
      case Some(v) => if v <= IntMax then Some(v) else None
      case None => None
  }

  /**
   * Parsing what `Int.toString()` printed gives the number back when it fits
   * in 32 bits, and null when it does not ("2147483648" is rejected).
   */
  lemma IntToStringRoundTrip(n: int)
    ensures ToIntOrNull(IntToString(n)) == if InIntRange(n) then Some(n) else None
  {
    if n < 0 {
      var s := IntToString(n);
      assert s[1..] == Digits(-n);
      AccumulateDigits(-n);
    } else {
      AccumulateDigits(n);
    }
  }

  /** An explicit plus sign is accepted: "+7" reads as 7, and an out-of-range value is still null. */
  lemma PlusSignRoundTrip(n: nat)
    ensures ToIntOrNull("+" + Digits(n)) == if n <= IntMax then Some(n) else None
  {
    var s := "+" + Digits(n);
    assert s[1..] == Digits(n);
    AccumulateDigits(n);
  }

  /** Leading zeros do not change the parsed value ("07" is 7). */
  lemma LeadingZero(s: string)
    requires s != [] && AllDigits(s)
    ensures ToIntOrNull("0" + s) == ToIntOrNull(s)
  {
    var z := "0" + s;
    assert z[1..] == s;
    AccumulateAppend("0", s, 0);
  }

  // ---------------------------------------------------------------------------
  // trim

  /**
   * `Char.isWhitespace()`: Java's `Character.isWhitespace` or
   * `Character.isSpaceChar`, i.e. the ASCII controls TAB..CR and FS..US and
   * every Unicode space, line and paragraph separator (no-break spaces included).
   */
  predicate IsWhitespace(c: char) {
    ('\t' <= c <= '\r') || ('\U{1C}' <= c <= ' ') || c == '\U{A0}' || c == '\U{1680}'
    || ('\U{2000}' <= c <= '\U{200A}') || c == '\U{2028}' || c == '\U{2029}'
    || c == '\U{202F}' || c == '\U{205F}' || c == '\U{3000}'
  }

  predicate AllWhitespace(s: string) {
    forall k :: 0 <= k < |s| ==> IsWhitespace(s[k])
  }

  /** `s` without its leading whitespace. */
  function TrimStart(s: string): string {
    if s == [] || !IsWhitespace(s[0]) then s else TrimStart(s[1..])
  }

  /** `s` without its trailing whitespace. */
  function TrimEnd(s: string): string {
    if s == [] || !IsWhitespace(s[|s| - 1]) then s else TrimEnd(s[..|s| - 1])
  }

  /** `String.trim()`: both ends stripped of whitespace. */
  function Trim(s: string): (r: string)
    ensures |r| <= |s|
    ensures r != [] ==> !IsWhitespace(r[0]) && !IsWhitespace(r[|r| - 1])
  {
    TrimStartSpec(s);
    TrimEndSpec(TrimStart(s));
    TrimEnd(TrimStart(s))
  }

  /** `TrimStart` removes a whitespace prefix and stops at the first other character. */
  lemma {:induction false} TrimStartSpec(s: string)
    ensures var r := TrimStart(s);
      |r| <= |s| && r == s[|s| - |r|..] && AllWhitespace(s[..|s| - |r|]) &&
      (r != [] ==> !IsWhitespace(r[0]))
  {
    if s != [] && IsWhitespace(s[0]) {
      TrimStartSpec(s[1..]);
      var r := TrimStart(s);
      assert s[1..][|s| - 1 - |r|..] == s[|s| - |r|..];
      forall k | 0 <= k < |s| - |r| ensures IsWhitespace(s[k]) {
        if k > 0 {
          assert s[1..][..|s| - 1 - |r|][k - 1] == s[k];
        }
      }
    }
  }

  /** `TrimEnd` removes a whitespace suffix and stops at the last other character. */
  lemma {:induction false} TrimEndSpec(s: string)
    ensures var r := TrimEnd(s);
      |r| <= |s| && r == s[..|r|] && AllWhitespace(s[|r|..]) &&
      (r != [] ==> !IsWhitespace(r[|r| - 1]))
  {
    if s != [] && IsWhitespace(s[|s| - 1]) {
      var t := s[..|s| - 1];
      TrimEndSpec(t);
      var r := TrimEnd(s);
      assert t[..|r|] == s[..|r|];
      forall k | |r| <= k < |s| ensures IsWhitespace(s[k]) {
        if k < |s| - 1 {
          assert t[|r|..][k - |r|] == s[k];
        }
      }
    }
  }

  lemma {:induction false} TrimStartAllWhitespace(s: string)
    requires AllWhitespace(s)
    ensures TrimStart(s) == []
  {
    if s != [] {
      TrimStartAllWhitespace(s[1..]);
    }
  }

  /** A string trims to empty exactly when it is all whitespace (the empty string included). */
  lemma TrimEmptyIff(s: string)
    ensures Trim(s) == [] <==> AllWhitespace(s)
  {
    if AllWhitespace(s) {
      TrimStartAllWhitespace(s);
    }
    if Trim(s) == [] {
      var t := TrimStart(s);
      TrimStartSpec(s);
      TrimEndSpec(t);
      assert AllWhitespace(t) by { assert t[0..] == t; }
      assert t == [];
      assert s[..|s|] == s;
    }
  }

  /** What `trim` keeps is a piece of the input that it would keep again. */
  lemma TrimIdempotent(s: string)
    ensures Trim(Trim(s)) == Trim(s)
  {
    var t := TrimStart(s);
    var r := Trim(s);
    TrimStartSpec(s);
    TrimEndSpec(t);
    if r != [] {
      assert r[0] == t[0];
      assert TrimStart(r) == r;
      assert TrimEnd(r) == r;
    }
  }
}
