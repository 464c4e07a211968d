/**
 * The JavaScript string and number primitives the call core relies on,
 * stated on `seq<char>` and unbounded integers.
 */
module JsString {

  // ---------------------------------------------------------------------
  // String.prototype.split and Array.prototype.join, one-character separator
  // ---------------------------------------------------------------------

  /**
   * `s.split(sep)`: the separator-free pieces between separators, in order.
   * The empty string splits into one empty piece; a separator at either end
   * yields an empty piece there.
   */
  function Split(s: string, sep: char): (parts: seq<string>)
    ensures |parts| >= 1
    ensures forall i :: 0 <= i < |parts| ==> sep !in parts[i]
    decreases |s|
  {
    if s == [] then [""]
    else
      var rest := Split(s[1..], sep);
      if s[0] == sep then [""] + rest
      else [[s[0]] + rest[0]] + rest[1..]
  }

  /** `parts.join(sep)`. */
  function Join(parts: seq<string>, sep: char): (s: string)
    decreases |parts|
  {
    if |parts| == 0 then ""
    else if |parts| == 1 then parts[0]
    else parts[0] + [sep] + Join(parts[1..], sep)
  }

  /** Joining the pieces of a split with the same separator gives back the string. */
  lemma {:induction false} JoinSplit(s: string, sep: char)
    ensures Join(Split(s, sep), sep) == s
    decreases |s|
  {
    if s != [] {
      var rest := Split(s[1..], sep);
      JoinSplit(s[1..], sep);
      if s[0] == sep {
        assert Split(s, sep) == [""] + rest;
        assert ([""] + rest)[1..] == rest;
        assert s == [sep] + s[1..];
      } else if |rest| == 1 {
        assert Split(s, sep) == [[s[0]] + rest[0]];
        assert s == [s[0]] + s[1..];
      } else {
        var parts := Split(s, sep);
        assert parts == [[s[0]] + rest[0]] + rest[1..];
        assert parts[1..] == rest[1..];
        assert Join(rest, sep) == rest[0] + [sep] + Join(rest[1..], sep);
        assert s == [s[0]] + s[1..];
      }
    }
  }

  /** A separator-free prefix glues onto the first piece of what follows it. */
  lemma {:induction false} SplitFreePrefix(a: string, rest: string, sep: char)
    requires sep !in a
    ensures Split(a + rest, sep) == [a + Split(rest, sep)[0]] + Split(rest, sep)[1..]
    decreases |a|
  {
    if a == [] {
      var tailParts := Split(rest, sep);
      assert a + rest == rest && a + tailParts[0] == tailParts[0];
      assert tailParts == [tailParts[0]] + tailParts[1..];
    } else {
      var tailParts := Split(rest, sep);
      var r := Split(a[1..] + rest, sep);
      SplitFreePrefix(a[1..], rest, sep);
      assert Split(a + rest, sep) == [[a[0]] + r[0]] + r[1..] by {
        assert a[0] != sep by { assert a[0] in a; }
        assert (a + rest)[1..] == a[1..] + rest;
      }
      assert [a[0]] + r[0] == a + tailParts[0] by {
        assert r[0] == a[1..] + tailParts[0];
        assert a == [a[0]] + a[1..];
      }
    }
  }

  /** Splitting a join of separator-free pieces gives back the pieces. */
  lemma {:induction false} SplitJoin(parts: seq<string>, sep: char)
    requires |parts| >= 1
    requires forall i :: 0 <= i < |parts| ==> sep !in parts[i]
    ensures Split(Join(parts, sep), sep) == parts
    decreases |parts|
  {
    if |parts| == 1 {
      SplitFreePrefix(parts[0], "", sep);
      assert parts[0] + "" == parts[0];
    } else {
      var tail := Join(parts[1..], sep);
      SplitJoin(parts[1..], sep);
      assert ([sep] + tail)[1..] == tail;
      assert Split([sep] + tail, sep) == [""] + parts[1..];
      SplitFreePrefix(parts[0], [sep] + tail, sep);
      assert parts[0] + [sep] + tail == parts[0] + ([sep] + tail);
      var after := [""] + parts[1..];
      assert after[0] == "" && after[1..] == parts[1..];
      assert parts[0] + "" == parts[0];
      assert parts == [parts[0]] + parts[1..];
    }
  }

  /** Splitting at a separator splits each side on its own: the pieces of the left, then those of the right. */
  lemma {:induction false} SplitAroundSeparator(p: string, q: string, sep: char)
    ensures Split(p + [sep] + q, sep) == Split(p, sep) + Split(q, sep)
    decreases |p|
  {
    if p == [] {
      assert p + [sep] + q == [sep] + q;
      SplitFirst(sep, q, sep);
    } else {
      var c, tail := p[0], p[1..];
      SplitAroundSeparator(tail, q, sep);
      SplitAroundSeparatorStep(c, tail, q, sep);
      assert p == [c] + tail;
    }
  }

  /** One more character in front of the left side keeps the split around the separator. */
  lemma SplitAroundSeparatorStep(c: char, tail: string, q: string, sep: char)
    requires Split(tail + [sep] + q, sep) == Split(tail, sep) + Split(q, sep)
    ensures Split([c] + tail + [sep] + q, sep) == Split([c] + tail, sep) + Split(q, sep)
  {
    var whole := tail + [sep] + q;
    assert [c] + tail + [sep] + q == [c] + whole;
    SplitFirst(c, whole, sep);
    SplitFirst(c, tail, sep);
    GlueFirst(c, sep, Split(tail, sep), Split(q, sep));
  }

  /** The first piece a character joins is in the left part of a list of pieces. */
  lemma GlueFirst(c: char, sep: char, left: seq<string>, right: seq<string>)
    requires |left| >= 1
    ensures (if c == sep then [""] + (left + right) else [[c] + (left + right)[0]] + (left + right)[1..])
      == (if c == sep then [""] + left else [[c] + left[0]] + left[1..]) + right
  {
    assert (left + right)[0] == left[0] && (left + right)[1..] == left[1..] + right;
  }

  /** How the first character of a string shapes its split. */
  lemma SplitFirst(c: char, t: string, sep: char)
    ensures Split([c] + t, sep) ==
      if c == sep then [""] + Split(t, sep) else [[c] + Split(t, sep)[0]] + Split(t, sep)[1..]
  {
    assert ([c] + t)[0] == c && ([c] + t)[1..] == t;
  }

  // ---------------------------------------------------------------------
  // String.prototype.startsWith and String.prototype.padStart
  // ---------------------------------------------------------------------

  /** `s.startsWith(prefix)`. */
  predicate StartsWith(s: string, prefix: string)
  {
    |prefix| <= |s| && s[..|prefix|] == prefix
  }

  /**
   * `s.padStart(width, fill)` with a one-character `fill`: prepends copies of
   * `fill` until the length reaches `width`; a longer `s` is left as it is.
   */
  function PadStart(s: string, width: nat, fill: char): (r: string)
    ensures |r| == if |s| < width then width else |s|
    ensures r[|r| - |s|..] == s
    ensures forall i :: 0 <= i < |r| - |s| ==> r[i] == fill
  {
    (if |s| < width then Repeat(fill, width - |s|) else "") + s
  }

  /** `k` copies of `c`. */
  function Repeat(c: char, k: nat): (r: string)
    ensures |r| == k
    ensures forall i :: 0 <= i < k ==> r[i] == c
  {
    if k == 0 then "" else [c] + Repeat(c, k - 1)
  }

  // ---------------------------------------------------------------------
  // Number.prototype.toString and the % operator on integers
  // ---------------------------------------------------------------------

  predicate IsDigit(c: char)
  {
    '0' <= c <= '9'
  }

  predicate IsDecimal(s: string)
  {
    forall i :: 0 <= i < |s| ==> IsDigit(s[i])
  }

  function DigitChar(d: nat): (c: char)
    requires d < 10
    ensures IsDigit(c) && c as int - '0' as int == d
  {
    (('0' as int) + d) as char
  }

  /** The number a string of decimal digits denotes; leading zeros are allowed. */
  function DecimalValue(s: string): (value: nat)
    requires IsDecimal(s)
    decreases |s|
  {
    if s == [] then 0
    else 10 * DecimalValue(s[..|s| - 1]) + (s[|s| - 1] as int - '0' as int)
  }

  /** `n.toString()` for a non-negative integer: its decimal digits without leading zeros. */
  function NatToString(n: nat): (r: string)
    ensures 1 <= |r| && IsDecimal(r)
    ensures |r| > 1 ==> r[0] != '0'
    ensures n < 10 <==> |r| == 1
    ensures n < 100 ==> |r| <= 2
    decreases n
  {
    if n < 10 then [DigitChar(n)] else NatToString(n / 10) + [DigitChar(n % 10)]
  }

  /** `n.toString()` for any integer: a minus sign before the digits of a negative number. */
  function IntToString(n: int): (r: string)
    ensures n >= 0 ==> IsDecimal(r) && r == NatToString(n)
    ensures n < 0 ==> |r| >= 2 && r[0] == '-' && IsDecimal(r[1..]) && DecimalValue(r[1..]) == -n
    ensures n < 0 ==> r[1..] == NatToString(-n)
  {
    if n < 0 then
      var digits := NatToString(-n);
      DecimalValueOfNatToString(-n);
      assert ("-" + digits)[1..] == digits;
      "-" + digits
    else NatToString(n)
  }

  /** Reading back the digits of `n.toString()` gives `n`. */
  lemma {:induction false} DecimalValueOfNatToString(n: nat)
    ensures DecimalValue(NatToString(n)) == n
    decreases n
  {
    if n >= 10 {
      DecimalValueOfNatToString(n / 10);
      var r := NatToString(n);
      assert r[..|r| - 1] == NatToString(n / 10);
    }
  }

  /** A leading zero does not change the value of a digit string. */
  lemma {:induction false} LeadingZeroIgnored(s: string)
    requires IsDecimal(s)
    ensures IsDecimal("0" + s) && DecimalValue("0" + s) == DecimalValue(s)
    decreases |s|
  {
    if s != [] {
      var t := "0" + s;
      assert t[..|t| - 1] == "0" + s[..|s| - 1];
      LeadingZeroIgnored(s[..|s| - 1]);
    }
  }

  /** Any run of leading zeros does not change the value of a digit string. */
  lemma {:induction false} LeadingZerosIgnored(zeros: string, s: string)
    requires forall i :: 0 <= i < |zeros| ==> zeros[i] == '0'
    requires IsDecimal(s)
    ensures IsDecimal(zeros + s) && DecimalValue(zeros + s) == DecimalValue(s)
    decreases |zeros|
  {
    if zeros == [] {
      assert zeros + s == s;
    } else {
      LeadingZerosIgnored(zeros[1..], s);
      LeadingZeroIgnored(zeros[1..] + s);
      assert zeros == [zeros[0]] + zeros[1..];
      assert zeros + s == "0" + (zeros[1..] + s);
    }
  }

  /**
   * `a % b` on integers with `b > 0`: unlike Dafny's `%`, the remainder takes
   * the sign of the dividend.
   */
  function Remainder(a: int, b: int): (r: int)
    requires b > 0
    ensures -b < r < b
    ensures a >= 0 ==> 0 <= r
    ensures a <= 0 ==> r <= 0
    ensures exists q :: a - r == q * b
  {
    if a >= 0 then
      assert a - a % b == (a / b) * b;
      a % b
    else
      assert -a - (-a) % b == ((-a) / b) * b;
      assert a + (-a) % b == (-((-a) / b)) * b;
      -((-a) % b)
  }
}
