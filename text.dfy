/** Rendering numbers as text and joining strings, as JavaScript's template literals and `join` do. */
module Text {

  function DigitChar(d: nat): char
    requires d < 10
  {
    ('0' as int + d) as char
  }

  predicate IsDigit(c: char) {
    '0' <= c <= '9'
  }

  predicate AllDigits(s: string) {
    forall i | 0 <= i < |s| :: IsDigit(s[i])
  }

  /** Reads a string of decimal digits back as the number it denotes. */
  function ParseNat(s: string): nat
    requires AllDigits(s)
    decreases |s|
  {
    if s == [] then 0 else ParseNat(s[..|s| - 1]) * 10 + (s[|s| - 1] as int - '0' as int)
  }

  /**
   * Decimal digits of a natural number, most significant first: at least one
   * digit, no leading zero, and they read back as `n`.
   */
  function NatToString(n: nat): (s: string)
    ensures |s| >= 1 && AllDigits(s)
    ensures s[0] == '0' ==> n == 0
    ensures ParseNat(s) == n
    decreases n
  {
    if n < 10 then [DigitChar(n)]
    else
      var s := NatToString(n / 10) + [DigitChar(n % 10)];
      assert s[..|s| - 1] == NatToString(n / 10);
      s
  }

  /**
   * `${i}` / `i.toString()` for an integer: at least one digit and no leading
   * zero, with a minus sign before the digits of a negative one.
   */
  function IntToString(i: int): (s: string)
    ensures i >= 0 ==> |s| >= 1 && AllDigits(s) && ParseNat(s) == i
    ensures i >= 0 ==> (s[0] == '0' ==> i == 0)
    ensures i < 0 ==> |s| >= 2 && s[0] == '-' && AllDigits(s[1..]) && ParseNat(s[1..]) == -i
    ensures i < 0 ==> s[1] != '0'
  {
    if i < 0 then
      var s := "-" + NatToString(-i);
      assert s[1..] == NatToString(-i);
      s
    else NatToString(i)
  }

  /** Different integers never render as the same text. */
  lemma IntToStringInjective(i: int, j: int)
    requires i != j
    ensures IntToString(i) != IntToString(j)
  {
    var s, t := IntToString(i), IntToString(j);
    if i >= 0 && j >= 0 {
      assert ParseNat(s) != ParseNat(t);
    } else if i < 0 && j < 0 {
      assert ParseNat(s[1..]) != ParseNat(t[1..]);
    } else if i < 0 {
      assert s[0] == '-' && IsDigit(t[0]);
    } else {
      assert IsDigit(s[0]) && t[0] == '-';
    }
  }

  /** The combined length of the parts. */
  function TotalLength(parts: seq<string>): nat
    decreases |parts|
  {
    if parts == [] then 0 else |parts[0]| + TotalLength(parts[1..])
  }

  /**
   * `parts.join(sep)`: the parts in order, one separator between neighbours
   * and none at either end.
   */
  function Join(parts: seq<string>, sep: string): (r: string)
    ensures parts == [] ==> r == ""
    ensures parts != [] ==> |r| == TotalLength(parts) + (|parts| - 1) * |sep|
    ensures parts != [] ==> r[..|parts[0]|] == parts[0]
    ensures |parts| >= 2 ==> r[|parts[0]|..|parts[0]| + |sep|] == sep
    decreases |parts|
  {
    if |parts| == 0 then ""
    else if |parts| == 1 then parts[0]
    else parts[0] + sep + Join(parts[1..], sep)
  }

  /** Joining one more part adds a separator and that part at the end. */
  lemma {:induction false} JoinSnoc(parts: seq<string>, p: string, sep: string)
    requires parts != []
    ensures Join(parts + [p], sep) == Join(parts, sep) + sep + p
    decreases |parts|
  {
    var q := parts + [p];
    assert q[0] == parts[0];
    if |parts| == 1 {
      assert q[1..] == [p];
      assert Join(q[1..], sep) == p;
    } else {
      assert q[1..] == parts[1..] + [p];
      JoinSnoc(parts[1..], p, sep);
      var rest := Join(parts[1..], sep);
      assert Join(q, sep) == parts[0] + sep + (rest + sep + p);
      assert Join(parts, sep) == parts[0] + sep + rest;
    }
  }
}
