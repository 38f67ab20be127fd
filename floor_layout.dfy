/** Where a desk is drawn on the floor map: the coordinate registered for
    its desk number in the floor's layout table, or else a point of a fallback
    grid derived from the digits of its desk number. The layout tables
    themselves are data; here they are an opaque map from floor number to
    desk number to point. */
module FloorLayout {
  import opened Text
  import opened Wrappers
  import opened Seqs

  datatype Point = Point(x: real, y: real)

  /** Floor number to desk number to drawing position. */
  type Layouts = map<int, map<string, Point>>

  /** `s.replace(/\D/g, '')`: the ASCII digits of `s`, in order. */
  function DigitsOf(s: string): (r: string)
    ensures AllDigits(r) && |r| <= |s|
    ensures forall c :: c in r <==> c in s && IsDigit(c)
    ensures IsSubsequence(r, s)
    decreases |s|
  {
    if s == [] then []
    else
      var rest := DigitsOf(s[1..]);
      assert forall c :: c in s <==> c == s[0] || c in s[1..];
      if IsDigit(s[0]) then
        assert ([s[0]] + rest)[1..] == rest;
        [s[0]] + rest
      else
        SubsequenceOfTail(rest, s);
        rest
  }

  /** Digit extraction works piecewise: the digits of a joined string are the
      digits of its parts, joined. */
  lemma {:induction false} DigitsOfConcat(a: string, b: string)
    ensures DigitsOf(a + b) == DigitsOf(a) + DigitsOf(b)
    decreases |a|
  {
    if a == [] {
      assert a + b == b;
    } else {
      assert (a + b)[0] == a[0] && (a + b)[1..] == a[1..] + b;
      DigitsOfConcat(a[1..], b);
    }
  }

  /** A string without digits has none to extract. */
  lemma DigitsOfNone(s: string)
    requires forall c :: c in s ==> !IsDigit(c)
    ensures DigitsOf(s) == []
  {
  }

  /** `parseInt(digits) || 0`: the number the digits spell, 0 when there are none. */
  function DeskOrdinal(deskNumber: string): (n: nat)
    ensures (forall c :: c in deskNumber ==> !IsDigit(c)) ==> n == 0
  {
    var ds := DigitsOf(deskNumber);
    if ds == [] then 0 else DigitsValue(ds)
  }

  /** The fallback grid: ten desks per row, 50 units apart, from (100, 100). */
  function DefaultPosition(deskNumber: string): (p: Point)
    ensures 100.0 <= p.x <= 550.0 && p.y >= 100.0
  {
    var n := DeskOrdinal(deskNumber);
    Point((100 + (n % 10) * 50) as real, (100 + (n / 10) * 50) as real)
  }

  /** A desk number made only of digits is read as its decimal value. */
  lemma {:induction false} DigitsOfDigits(s: string)
    requires AllDigits(s)
    ensures DigitsOf(s) == s
    decreases |s|
  {
    if s != [] {
      DigitsOfDigits(s[1..]);
    }
  }

  /** Desk "n" (decimal, no sign) is drawn at column n mod 10, row n div 10. */
  lemma DefaultPositionOfNumber(n: nat)
    ensures DeskOrdinal(NatToString(n)) == n
    ensures DefaultPosition(NatToString(n)) == Point((100 + (n % 10) * 50) as real, (100 + (n / 10) * 50) as real)
  {
    var s := NatToString(n);
    DigitsOfDigits(s);
    DigitsValueOfNatToString(n);
    assert DeskOrdinal(s) == n;
  }

  /** A desk number whose only digits are those of `n` (a prefix such as "A-"
      or a suffix such as "bis" around them) is read as `n`. */
  lemma DeskOrdinalOfEmbedded(prefix: string, n: nat, suffix: string)
    requires forall c :: c in prefix ==> !IsDigit(c)
    requires forall c :: c in suffix ==> !IsDigit(c)
    ensures DeskOrdinal(prefix + NatToString(n) + suffix) == n
  {
    var ds := NatToString(n);
    DigitsOfConcat(prefix + ds, suffix);
    DigitsOfConcat(prefix, ds);
    DigitsOfNone(prefix);
    DigitsOfNone(suffix);
    DigitsOfDigits(ds);
    DigitsValueOfNatToString(n);
    assert DigitsOf(prefix + ds + suffix) == ds;
  }

  /** Desks with different ordinals never share a fallback position. */
  lemma DefaultPositionInjective(a: string, b: string)
    requires DeskOrdinal(a) != DeskOrdinal(b)
    ensures DefaultPosition(a) != DefaultPosition(b)
  {
    var m, n := DeskOrdinal(a), DeskOrdinal(b);
    assert m == 10 * (m / 10) + m % 10;
    assert n == 10 * (n / 10) + n % 10;
  }

  /** The fallback ignores everything but the digits: a letter prefix such as
      "A" or "B" in front of `n` lands on the same cell as plain `n`, so "1",
      "A1" and "B1" all fall back to (150, 100). */
  lemma PrefixedNumberSharesPosition(prefix: string, n: nat)
    requires forall c :: c in prefix ==> !IsDigit(c)
    ensures DefaultPosition(prefix + NatToString(n)) == DefaultPosition(NatToString(n))
            == Point((100 + (n % 10) * 50) as real, (100 + (n / 10) * 50) as real)
  {
    DeskOrdinalOfEmbedded(prefix, n, "");
    assert prefix + NatToString(n) + "" == prefix + NatToString(n);
    DefaultPositionOfNumber(n);
  }

  /** `floorLayouts[floorNumber] || {}`, then `layout[deskNumber] || getDefaultPosition(deskNumber)`. */
  function PositionOf(layouts: Layouts, floorNumber: int, deskNumber: string): (p: Point)
    ensures floorNumber in layouts && deskNumber in layouts[floorNumber] ==> p == layouts[floorNumber][deskNumber]
    ensures !(floorNumber in layouts && deskNumber in layouts[floorNumber]) ==> p == DefaultPosition(deskNumber)
  {
    var layout := if floorNumber in layouts then layouts[floorNumber] else map[];
    if deskNumber in layout then layout[deskNumber] else DefaultPosition(deskNumber)
  }
}
