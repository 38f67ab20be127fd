/** String helpers shared by the components: whitespace and trimming as
    JavaScript's `String.prototype.trim` and Python's `str.strip` see them,
    lower-casing, substring search (`includes`) and decimal rendering and
    parsing of integers (`String(n)`, `padStart`, `parseInt`). */
module Text {

  /** WhiteSpace and LineTerminator code points of ECMAScript: what `trim`
      removes and what the regular expression class `\s` matches. */
  predicate IsJsWhitespace(c: char) {
    c == '\t' || c == '\n' || c == '\U{0B}' || c == '\U{0C}' || c == '\r' || c == ' '
    || c == '\U{A0}' || c == '\U{1680}' || ('\U{2000}' <= c <= '\U{200A}')
    || c == '\U{2028}' || c == '\U{2029}' || c == '\U{202F}' || c == '\U{205F}'
    || c == '\U{3000}' || c == '\U{FEFF}'
  }

  /** Code points Python's `str.isspace` accepts, i.e. what `str.strip()` removes. */
  predicate IsPyWhitespace(c: char) {
    ('\t' <= c <= '\r') || ('\U{1C}' <= c <= ' ') || c == '\U{85}' || c == '\U{A0}'
    || c == '\U{1680}' || ('\U{2000}' <= c <= '\U{200A}') || c == '\U{2028}'
    || c == '\U{2029}' || c == '\U{202F}' || c == '\U{205F}' || c == '\U{3000}'
  }

  predicate AllJsWhitespace(s: string) {
    forall i :: 0 <= i < |s| ==> IsJsWhitespace(s[i])
  }

  /** `s.trim()`: drops JavaScript whitespace at both ends. */
  function JsTrim(s: string): (r: string)
    ensures exists i, j :: 0 <= i <= j <= |s| && r == s[i..j] && AllJsWhitespace(s[..i]) && AllJsWhitespace(s[j..])
    ensures r != [] ==> !IsJsWhitespace(r[0]) && !IsJsWhitespace(r[|r| - 1])
    ensures r == [] <==> AllJsWhitespace(s)
  {
    var i := SkipStart(s, 0);
    var j := SkipEnd(s, i, |s|);
    assert AllJsWhitespace(s[..i]) && AllJsWhitespace(s[j..]);
    s[i..j]
  }

  /** The first index at or after `i` that does not hold JavaScript whitespace. */
  function SkipStart(s: string, i: nat): (k: nat)
    requires i <= |s|
    requires AllJsWhitespace(s[..i])
    ensures i <= k <= |s| && AllJsWhitespace(s[..k])
    ensures k < |s| ==> !IsJsWhitespace(s[k])
    decreases |s| - i
  {
    if i < |s| && IsJsWhitespace(s[i]) then
      assert s[..i + 1] == s[..i] + [s[i]];
      SkipStart(s, i + 1)
    else i
  }

  /** The smallest `k >= lo` such that `s[k..j]` is all JavaScript whitespace. */
  function SkipEnd(s: string, lo: nat, j: nat): (k: nat)
    requires lo <= j <= |s|
    requires AllJsWhitespace(s[j..])
    ensures lo <= k <= j && AllJsWhitespace(s[k..])
    ensures k > lo ==> !IsJsWhitespace(s[k - 1])
    decreases j - lo
  {
    if j > lo && IsJsWhitespace(s[j - 1]) then
      assert s[j - 1..] == [s[j - 1]] + s[j..];
      SkipEnd(s, lo, j - 1)
    else j
  }

  /** `SkipStart(s, 0)` is the one index that ends a whitespace prefix at a non-whitespace character or at the end. */
  lemma SkipStartUnique(s: string, k: nat)
    requires k <= |s| && AllJsWhitespace(s[..k])
    requires k < |s| ==> !IsJsWhitespace(s[k])
    ensures SkipStart(s, 0) == k
  {
    var k' := SkipStart(s, 0);
  }

  /** `SkipEnd(s, lo, |s|)` is the one index at or after `lo` that starts a whitespace
      suffix right after a non-whitespace character or at `lo`. */
  lemma SkipEndUnique(s: string, lo: nat, k: nat)
    requires lo <= k <= |s| && AllJsWhitespace(s[k..])
    requires k > lo ==> !IsJsWhitespace(s[k - 1])
    ensures SkipEnd(s, lo, |s|) == k
  {
    var k' := SkipEnd(s, lo, |s|);
  }

  lemma AllJsWhitespaceConcat(a: string, b: string)
    ensures AllJsWhitespace(a + b) <==> AllJsWhitespace(a) && AllJsWhitespace(b)
  {
    assert forall i :: 0 <= i < |a| ==> (a + b)[i] == a[i];
    assert forall i :: 0 <= i < |b| ==> (a + b)[|a| + i] == b[i];
  }

  /** `trim` removes any whitespace added at either end: `(p + s + q).trim() == s.trim()`. */
  lemma TrimPadded(s: string, pad1: string, pad2: string)
    requires AllJsWhitespace(pad1) && AllJsWhitespace(pad2)
    ensures JsTrim(pad1 + s + pad2) == JsTrim(s)
  {
    AllJsWhitespaceConcat(pad1, s);
    AllJsWhitespaceConcat(pad1 + s, pad2);
    if !AllJsWhitespace(s) {
      TrimPaddedCore(s, pad1, pad2);
    }
  }

  lemma TrimPaddedCore(s: string, pad1: string, pad2: string)
    requires AllJsWhitespace(pad1) && AllJsWhitespace(pad2) && !AllJsWhitespace(s)
    ensures JsTrim(pad1 + s + pad2) == JsTrim(s)
  {
    var t := pad1 + s + pad2;
    var a := SkipStart(s, 0);
    var b := SkipEnd(s, a, |s|);
    PaddedStart(s, pad1, pad2);
    PaddedEnd(s, pad1, pad2, a);
    ShiftedSlice(pad1, s, pad2, a, b);
  }

  lemma ShiftedSlice(pad1: string, s: string, pad2: string, a: nat, b: nat)
    requires a <= b <= |s|
    ensures (pad1 + s + pad2)[|pad1| + a..|pad1| + b] == s[a..b]
  {
  }

  /** The first non-whitespace character of `pad1 + s + pad2` is that of `s`, shifted. */
  lemma PaddedStart(s: string, pad1: string, pad2: string)
    requires AllJsWhitespace(pad1) && AllJsWhitespace(pad2) && !AllJsWhitespace(s)
    ensures SkipStart(s, 0) < |s|
    ensures SkipStart(pad1 + s + pad2, 0) == |pad1| + SkipStart(s, 0)
  {
    var t := pad1 + s + pad2;
    var a := SkipStart(s, 0);
    assert t[|pad1| + a] == s[a];
    assert t[..|pad1| + a] == pad1 + s[..a];
    AllJsWhitespaceConcat(pad1, s[..a]);
    SkipStartUnique(t, |pad1| + a);
  }

  /** The last non-whitespace character of `pad1 + s + pad2` is that of `s`, shifted. */
  lemma PaddedEnd(s: string, pad1: string, pad2: string, a: nat)
    requires AllJsWhitespace(pad2)
    requires a < |s| && !IsJsWhitespace(s[a])
    ensures var t := pad1 + s + pad2;
            SkipEnd(t, |pad1| + a, |t|) == |pad1| + SkipEnd(s, a, |s|)
  {
    var t := pad1 + s + pad2;
    var b := SkipEnd(s, a, |s|);
    SkipEndPastNonWhitespace(s, a);
    ShiftedIndex(pad1, s, pad2, b - 1);
    ShiftedSuffix(pad1, s, pad2, b);
    AllJsWhitespaceConcat(s[b..], pad2);
    assert AllJsWhitespace(t[|pad1| + b..]);
    assert !IsJsWhitespace(t[|pad1| + b - 1]);
    SkipEndUnique(t, |pad1| + a, |pad1| + b);
  }

  /** Scanning back from the end stops after a non-whitespace character at `a`. */
  lemma SkipEndPastNonWhitespace(s: string, a: nat)
    requires a < |s| && !IsJsWhitespace(s[a])
    ensures SkipEnd(s, a, |s|) > a && !IsJsWhitespace(s[SkipEnd(s, a, |s|) - 1])
  {
    assert s[a..][0] == s[a];
  }

  lemma ShiftedSuffix(pad1: string, s: string, pad2: string, b: nat)
    requires b <= |s|
    ensures (pad1 + s + pad2)[|pad1| + b..] == s[b..] + pad2
  {
  }

  lemma ShiftedIndex(pad1: string, s: string, pad2: string, i: nat)
    requires i < |s|
    ensures (pad1 + s + pad2)[|pad1| + i] == s[i]
  {
  }

  /** Python's `s.strip()` with no argument. */
  function PyStrip(s: string): (r: string)
    ensures |r| <= |s|
    ensures r != [] ==> !IsPyWhitespace(r[0]) && !IsPyWhitespace(r[|r| - 1])
    ensures r == [] <==> forall i :: 0 <= i < |s| ==> IsPyWhitespace(s[i])
    decreases |s|
  {
    if s == [] then s
    else if IsPyWhitespace(s[0]) then PyStrip(s[1..])
    else if IsPyWhitespace(s[|s| - 1]) then
      assert s[|s| - 1] in s;
      PyStrip(s[..|s| - 1])
    else s
  }

  predicate IsUpper(c: char) {
    ('A' <= c <= 'Z') || ('\U{C0}' <= c <= '\U{DE}' && c != '\U{D7}')
  }

  /** `toLowerCase` on one character: ASCII and Latin-1 capitals only. */
  function LowerChar(c: char): (r: char)
    ensures IsUpper(c) ==> r as int == c as int + 32
    ensures !IsUpper(c) ==> r == c
    ensures !IsUpper(r)
  {
    if IsUpper(c) then (c as int + 32) as char else c
  }

  function ToLower(s: string): (r: string)
    ensures |r| == |s|
    ensures forall i :: 0 <= i < |s| ==> r[i] == LowerChar(s[i])
  {
    seq(|s|, i requires 0 <= i < |s| => LowerChar(s[i]))
  }

  /** Lower-casing twice is lower-casing once. */
  lemma ToLowerIdempotent(s: string)
    ensures ToLower(ToLower(s)) == ToLower(s)
  {
    var t := ToLower(s);
    forall i | 0 <= i < |s| ensures ToLower(t)[i] == t[i] {
      assert !IsUpper(t[i]);
    }
  }

  /** The needle occurs in the haystack starting at index `i`. */
  predicate OccursAt(haystack: string, needle: string, i: int) {
    0 <= i && i + |needle| <= |haystack| && haystack[i..i + |needle|] == needle
  }

  /** `haystack.includes(needle)`: the needle occurs somewhere in the haystack. */
  function Contains(haystack: string, needle: string): (r: bool)
    ensures r <==> exists i :: OccursAt(haystack, needle, i)
    decreases |haystack|
  {
    if |needle| > |haystack| then false
    else if haystack[..|needle|] == needle then
      assert OccursAt(haystack, needle, 0);
      true
    else
      OccursStep(haystack, needle);
      Contains(haystack[1..], needle)
  }

  /** The needle occurs in `h` iff it is a prefix of `h` or occurs in `h[1..]`. */
  lemma OccursStep(h: string, n: string)
    requires |n| <= |h| && h != []
    ensures (exists i :: OccursAt(h, n, i)) <==> (h[..|n|] == n || exists i :: OccursAt(h[1..], n, i))
  {
    if exists i :: OccursAt(h, n, i) {
      var i :| OccursAt(h, n, i);
      if i > 0 {
        assert h[1..][i - 1..i - 1 + |n|] == h[i..i + |n|];
        assert OccursAt(h[1..], n, i - 1);
      }
    }
    if exists i :: OccursAt(h[1..], n, i) {
      var i :| OccursAt(h[1..], n, i);
      assert h[i + 1..i + 1 + |n|] == h[1..][i..i + |n|];
      assert OccursAt(h, n, i + 1);
    }
    if h[..|n|] == n {
      assert OccursAt(h, n, 0);
    }
  }

  predicate IsDigit(c: char) {
    '0' <= c <= '9'
  }

  predicate AllDigits(s: string) {
    forall i :: 0 <= i < |s| ==> IsDigit(s[i])
  }

  function DigitChar(d: nat): (c: char)
    requires d < 10
    ensures IsDigit(c) && c as int - '0' as int == d
  {
    ('0' as int + d) as char
  }

  /** `String(n)` for a non-negative integer: its decimal digits, no leading zero. */
  function NatToString(n: nat): (s: string)
    ensures |s| >= 1 && AllDigits(s)
    ensures |s| > 1 ==> s[0] != '0'
    ensures n < 10 <==> |s| == 1
    decreases n
  {
    if n < 10 then [DigitChar(n)] else NatToString(n / 10) + [DigitChar(n % 10)]
  }

  /** `String(i)` for any integer. */
  function IntToString(i: int): (s: string)
    ensures |s| >= 1
    ensures i >= 0 ==> AllDigits(s)
    ensures i < 0 ==> s[0] == '-' && AllDigits(s[1..])
  {
    if i < 0 then "-" + NatToString(-i) else NatToString(i)
  }

  /** The value of a string of decimal digits (leading zeros allowed). */
  function DigitsValue(s: string): (n: nat)
    requires AllDigits(s)
    decreases |s|
  {
    if s == [] then 0 else DigitsValue(s[..|s| - 1]) * 10 + (s[|s| - 1] as int - '0' as int)
  }

  /** Decimal rendering and digit parsing are inverse. */
  lemma {:induction false} DigitsValueOfNatToString(n: nat)
    ensures DigitsValue(NatToString(n)) == n
    decreases n
  {
    var s := NatToString(n);
    if n >= 10 {
      DigitsValueOfNatToString(n / 10);
      assert s[..|s| - 1] == NatToString(n / 10);
    }
  }

  /** Distinct numbers render differently. */
  lemma NatToStringInjective(a: nat, b: nat)
    requires NatToString(a) == NatToString(b)
    ensures a == b
  {
    DigitsValueOfNatToString(a);
    DigitsValueOfNatToString(b);
  }

  /** `s.padStart(width, c)`: prefix copies of `c` up to `width`; never truncates. */
  function PadStart(s: string, width: nat, c: char): (r: string)
    ensures |r| == if |s| >= width then |s| else width
    ensures r[|r| - |s|..] == s
    ensures forall i :: 0 <= i < |r| - |s| ==> r[i] == c
  {
    if |s| >= width then s else seq(width - |s|, _ => c) + s
  }

  /** `String(n).padStart(2, '0')`, the month and day field of an ISO date,
      written by cases: only a single digit is short of two characters. */
  function Pad2(n: int): string {
    if 0 <= n < 10 then ['0'] + IntToString(n) else IntToString(n)
  }

  /** `Pad2` is `padStart` with width 2 and fill `'0'`. */
  lemma Pad2IsPadStart(n: int)
    ensures Pad2(n) == PadStart(IntToString(n), 2, '0')
  {
    if n < 0 {
      assert |IntToString(n)| == 1 + |NatToString(-n)|;
    }
  }

  /** One digit gains a leading zero, two digits stay, longer numbers are not cut. */
  lemma Pad2Shape(n: int)
    ensures 0 <= n < 10 ==> Pad2(n) == ['0', DigitChar(n)]
    ensures 10 <= n < 100 ==> Pad2(n) == [DigitChar(n / 10), DigitChar(n % 10)]
    ensures n >= 100 ==> Pad2(n) == NatToString(n)
  {
    assert 10 <= n < 100 ==> NatToString(n / 10) == [DigitChar(n / 10)];
  }

  /** The parts joined end to end: `parts.join('')`. */
  function Concat(parts: seq<string>): string
    decreases |parts|
  {
    if parts == [] then "" else Concat(parts[..|parts| - 1]) + parts[|parts| - 1]
  }

  lemma AppendAssociative(a: string, b: string, c: string)
    ensures (a + b) + c == a + (b + c)
  {
  }

  lemma ConcatSnoc(parts: seq<string>, last: string)
    ensures Concat(parts + [last]) == Concat(parts) + last
  {
    assert (parts + [last])[..|parts|] == parts;
  }

  lemma {:induction false} ConcatAppend(a: seq<string>, b: seq<string>)
    ensures Concat(a + b) == Concat(a) + Concat(b)
    decreases |b|
  {
    if b != [] {
      var b' := b[..|b| - 1];
      assert a + b == (a + b') + [b[|b| - 1]];
      ConcatSnoc(a + b', b[|b| - 1]);
      ConcatAppend(a, b');
      ConcatSnoc(b', b[|b| - 1]);
      assert b == b' + [b[|b| - 1]];
    } else {
      assert a + b == a;
    }
  }
}
