/** The string operations the script relies on: '\n'.join and split('\n')
    for the headers, "%d" and "%03d" for the slice suffixes, and the
    built-in int() that turns a setting into a number. */
module Text {
  import opened Common

  /** '\n'.join(parts) */
  function Join(parts: seq<string>): string
  {
    if |parts| == 0 then ""
    else if |parts| == 1 then parts[0]
    else parts[0] + "\n" + Join(parts[1..])
  }

  /** s.split('\n'): the pieces between newlines, always at least one. */
  function Split(s: string): (r: seq<string>)
    ensures |r| >= 1
  {
    if |s| == 0 then [""]
    else if s[0] == '\n' then [""] + Split(s[1..])
    else
      var rest := Split(s[1..]);
      [[s[0]] + rest[0]] + rest[1..]
  }

  predicate NoNewline(s: string)
  {
    '\n' !in s
  }

  lemma {:induction false} SplitSingle(s: string)
    requires NoNewline(s)
    ensures Split(s) == [s]
  {
    if |s| > 0 {
      SplitSingle(s[1..]);
      assert [s[0]] + s[1..] == s;
    }
  }

  lemma {:induction false} SplitAround(a: string, b: string)
    requires NoNewline(a)
    ensures Split(a + "\n" + b) == [a] + Split(b)
  {
    if |a| == 0 {
      assert a + "\n" + b == "\n" + b;
      assert ("\n" + b)[1..] == b;
    } else {
      var s := a + "\n" + b;
      assert s[1..] == a[1..] + "\n" + b;
      SplitAround(a[1..], b);
      assert [a[0]] + a[1..] == a;
    }
  }

  /** Splitting a joined list of newline-free lines gives the lines back. */
  lemma {:induction false} SplitJoin(parts: seq<string>)
    requires |parts| >= 1
    requires forall i :: 0 <= i < |parts| ==> NoNewline(parts[i])
    ensures Split(Join(parts)) == parts
  {
    if |parts| == 1 {
      SplitSingle(parts[0]);
    } else {
      SplitJoin(parts[1..]);
      SplitAround(parts[0], Join(parts[1..]));
      assert [parts[0]] + parts[1..] == parts;
    }
  }

  /** Joining lines whose last one is empty ends the text in a newline. */
  lemma {:induction false} JoinTrailingEmpty(parts: seq<string>)
    requires |parts| >= 2 && parts[|parts| - 1] == ""
    ensures |Join(parts)| >= 1 && Join(parts)[|Join(parts)| - 1] == '\n'
  {
    if |parts| > 2 {
      JoinTrailingEmpty(parts[1..]);
    }
  }

  // ---- decimal numerals ----

  predicate IsDigit(c: char)
  {
    '0' <= c <= '9'
  }

  function DigitChar(d: nat): (c: char)
    requires d < 10
    ensures IsDigit(c) && c as int - '0' as int == d
  {
    (('0' as int) + d) as char
  }

  /** str(n) for a non-negative integer: no sign, no leading zeros. */
  function Decimal(n: nat): string
  {
    if n < 10 then [DigitChar(n)] else Decimal(n / 10) + [DigitChar(n % 10)]
  }

  predicate IsDigits(s: string)
  {
    |s| > 0 && forall k :: 0 <= k < |s| ==> IsDigit(s[k])
  }

  /** The value of a numeral, most significant digit first. */
  function DigitsValue(s: string): nat
    requires forall k :: 0 <= k < |s| ==> IsDigit(s[k])
  {
    if |s| == 0 then 0
    else
      var last := s[|s| - 1];
      assert IsDigit(last);
      10 * DigitsValue(s[..|s| - 1]) + (last as int - '0' as int)
  }

  /** The number a decimal numeral denotes, if it is one. */
  function ParseDecimal(s: string): (r: Option<nat>)
    ensures r.Some? <==> IsDigits(s)
  {
    if IsDigits(s) then Some(DigitsValue(s)) else None
  }

  function Pow10(k: nat): (p: nat)
    ensures p >= 1
  {
    if k == 0 then 1 else 10 * Pow10(k - 1)
  }

  /** str(n) is a numeral that denotes n, without leading zeros. */
  lemma {:induction false} DecimalParses(n: nat)
    ensures IsDigits(Decimal(n)) && ParseDecimal(Decimal(n)) == Some(n)
    ensures n == 0 || Decimal(n)[0] != '0'
  {
    if n >= 10 {
      DecimalParses(n / 10);
      var d := Decimal(n);
      var front := Decimal(n / 10);
      assert d == front + [DigitChar(n % 10)];
      assert d[0] == front[0];
      assert d[..|d| - 1] == front;
      assert IsDigits(d);
      assert DigitsValue(d) == 10 * DigitsValue(front) + n % 10;
    } else {
      var d := Decimal(n);
      assert d == [DigitChar(n)];
      assert d[..0] == [];
      assert DigitsValue(d) == 10 * DigitsValue([]) + n;
    }
  }

  /** str(n) has at most k digits exactly when n < 10^k. */
  lemma {:induction false} DecimalLength(n: nat, k: nat)
    requires k >= 1
    ensures |Decimal(n)| <= k <==> n < Pow10(k)
  {
    if n >= 10 {
      if k == 1 {
        assert |Decimal(n)| >= 2;
      } else {
        DecimalLength(n / 10, k - 1);
      }
    } else {
      PowAtLeastTen(k);
    }
  }

  lemma {:induction false} PowAtLeastTen(k: nat)
    requires k >= 1
    ensures Pow10(k) >= 10
  {
    if k > 1 {
      PowAtLeastTen(k - 1);
    }
  }

  function Zeros(k: nat): (z: string)
    ensures |z| == k && forall i :: 0 <= i < k ==> z[i] == '0'
  {
    seq(k, _ => '0')
  }

  /** "%03d" % i: the decimal numeral of i, padded on the left with zeros
      to a minimum width of three. */
  function Pad3(i: nat): string
  {
    var d := Decimal(i);
    if |d| >= 3 then d else Zeros(3 - |d|) + d
  }

  lemma {:induction false} ZerosValue(k: nat)
    ensures DigitsValue(Zeros(k)) == 0
  {
    if k > 0 {
      assert Zeros(k)[..k - 1] == Zeros(k - 1);
      ZerosValue(k - 1);
    }
  }

  /** Leading zeros do not change the value of a numeral. */
  lemma {:induction false} LeadingZerosValue(k: nat, s: string)
    requires forall j :: 0 <= j < |s| ==> IsDigit(s[j])
    ensures DigitsValue(Zeros(k) + s) == DigitsValue(s)
  {
    if |s| == 0 {
      assert Zeros(k) + s == Zeros(k);
      ZerosValue(k);
    } else {
      var t := Zeros(k) + s;
      assert t[..|t| - 1] == Zeros(k) + s[..|s| - 1];
      LeadingZerosValue(k, s[..|s| - 1]);
    }
  }

  /** The slice suffix: a numeral for i of at least three digits, exactly
      three below 1000, the bare numeral of i from 1000 on, and it always
      parses back to i. */
  lemma Pad3Spec(i: nat)
    ensures IsDigits(Pad3(i)) && ParseDecimal(Pad3(i)) == Some(i)
    ensures i < 1000 ==> |Pad3(i)| == 3
    ensures i >= 1000 ==> Pad3(i) == Decimal(i) && |Pad3(i)| > 3
  {
    DecimalParses(i);
    DecimalLength(i, 3);
    assert Pow10(3) == 1000;
    var d := Decimal(i);
    if |d| < 3 {
      LeadingZerosValue(3 - |d|, d);
    }
  }

  /** Distinct indices give distinct suffixes. */
  lemma Pad3Injective(i: nat, j: nat)
    requires Pad3(i) == Pad3(j)
    ensures i == j
  {
    Pad3Spec(i);
    Pad3Spec(j);
  }

  // ---- Python's int() on a string ----

  /** The characters int() skips around a numeral. */
  predicate IsSpace(c: char)
  {
    c == ' ' || c == '\t' || c == '\n' || c == '\r' || c == 11 as char || c == 12 as char
  }

  predicate AllSpace(w: string)
  {
    forall k :: 0 <= k < |w| ==> IsSpace(w[k])
  }

  /** s.lstrip() of the C-locale whitespace: a suffix of s. */
  function StripLeft(s: string): (r: string)
    ensures |r| == 0 || !IsSpace(r[0])
  {
    if |s| > 0 && IsSpace(s[0]) then StripLeft(s[1..]) else s
  }

  /** s.rstrip() of the C-locale whitespace: a prefix of s. */
  function StripRight(s: string): (r: string)
    ensures |r| == 0 || !IsSpace(r[|r| - 1])
  {
    if |s| > 0 && IsSpace(s[|s| - 1]) then StripRight(s[..|s| - 1]) else s
  }

  /** int(s) on a byte string (PyInt_FromString): whitespace, an optional
      sign, whitespace again, at least one decimal digit and trailing
      whitespace; anything else raises ValueError. */
  function PyInt(s: string): (r: Result<int>)
    ensures r.Err? ==> r.error == NotAnInteger(s)
  {
    var t := StripRight(StripLeft(s));
    if |t| > 0 && (t[0] == '-' || t[0] == '+') then
      var digits := StripLeft(t[1..]);
      if IsDigits(digits) then
        var v: int := if t[0] == '-' then -(DigitsValue(digits) as int) else DigitsValue(digits);
        Ok(v)
      else Err(NotAnInteger(s))
    else if IsDigits(t) then Ok(DigitsValue(t))
    else Err(NotAnInteger(s))
  }

  lemma {:induction false} StripLeftSpaces(w: string, s: string)
    requires AllSpace(w)
    ensures StripLeft(w + s) == StripLeft(s)
  {
    if |w| > 0 {
      assert (w + s)[1..] == w[1..] + s;
      StripLeftSpaces(w[1..], s);
    } else {
      assert w + s == s;
    }
  }

  lemma {:induction false} StripRightSpaces(s: string, w: string)
    requires AllSpace(w)
    ensures StripRight(s + w) == StripRight(s)
  {
    if |w| > 0 {
      assert (s + w)[..|s + w| - 1] == s + w[..|w| - 1];
      StripRightSpaces(s, w[..|w| - 1]);
    } else {
      assert s + w == s;
    }
  }

  lemma StripNumeral(d: string)
    requires IsDigits(d)
    ensures StripLeft(d) == d && StripRight(d) == d
  {
    assert IsDigit(d[0]) && IsDigit(d[|d| - 1]);
  }

  /** Stripping removes exactly the whitespace around a text that starts
      and ends with something else. */
  lemma StripAround(w1: string, t: string, w2: string)
    requires AllSpace(w1) && AllSpace(w2) && |t| > 0 && !IsSpace(t[0]) && !IsSpace(t[|t| - 1])
    ensures StripRight(StripLeft(w1 + t + w2)) == t
  {
    assert w1 + t + w2 == w1 + (t + w2);
    StripLeftSpaces(w1, t + w2);
    assert StripLeft(t + w2) == t + w2;
    StripRightSpaces(t, w2);
    assert StripRight(t) == t;
  }

  lemma PyIntNumeral(w1: string, d: string, w2: string)
    requires AllSpace(w1) && IsDigits(d) && AllSpace(w2)
    ensures PyInt(w1 + d + w2) == Ok(DigitsValue(d))
  {
    assert IsDigit(d[0]) && IsDigit(d[|d| - 1]);
    StripAround(w1, d, w2);
  }

  /** Stripping a signed numeral with whitespace around it leaves the
      sign, the whitespace after it and the digits. */
  lemma SignedStrip(w1: string, sign: char, w2: string, d: string, w3: string)
    requires AllSpace(w1) && (sign == '-' || sign == '+') && AllSpace(w2) && IsDigits(d) && AllSpace(w3)
    ensures StripRight(StripLeft(w1 + [sign] + w2 + d + w3)) == [sign] + w2 + d
  {
    var t := [sign] + w2 + d;
    assert w1 + [sign] + w2 + d + w3 == w1 + t + w3;
    assert t[|t| - 1] == d[|d| - 1];
    StripAround(w1, t, w3);
  }

  /** The digits int() reads after the sign. */
  lemma SignedDigits(sign: char, w2: string, d: string)
    requires AllSpace(w2) && IsDigits(d)
    ensures StripLeft(([sign] + w2 + d)[1..]) == d
  {
    assert ([sign] + w2 + d)[1..] == w2 + d;
    StripLeftSpaces(w2, d);
    StripNumeral(d);
  }

  lemma PyIntSignedNumeral(w1: string, sign: char, w2: string, d: string, w3: string)
    requires AllSpace(w1) && (sign == '-' || sign == '+') && AllSpace(w2) && IsDigits(d) && AllSpace(w3)
    ensures PyInt(w1 + [sign] + w2 + d + w3) == Ok(if sign == '-' then -(DigitsValue(d) as int) else DigitsValue(d))
  {
    SignedStrip(w1, sign, w2, d, w3);
    SignedDigits(sign, w2, d);
  }

  /** int(w1 + str(n) + w2) == n for whitespace w1 and w2. */
  lemma PyIntUnsigned(w1: string, n: nat, w2: string)
    requires AllSpace(w1) && AllSpace(w2)
    ensures PyInt(w1 + Decimal(n) + w2) == Ok(n)
  {
    DecimalParses(n);
    PyIntNumeral(w1, Decimal(n), w2);
  }

  /** int(w1 + sign + w2 + str(n) + w3) is n or -n for whitespace w1, w2
      and w3: Python 2 lets whitespace follow the sign. */
  lemma PyIntSigned(w1: string, neg: bool, w2: string, n: nat, w3: string)
    requires AllSpace(w1) && AllSpace(w2) && AllSpace(w3)
    ensures PyInt(w1 + (if neg then "-" else "+") + w2 + Decimal(n) + w3) == Ok(if neg then -(n as int) else n as int)
  {
    var sign := if neg then '-' else '+';
    assert (if neg then "-" else "+") == [sign];
    DecimalParses(n);
    PyIntSignedNumeral(w1, sign, w2, Decimal(n), w3);
  }

  /** A numeral without sign or whitespace: int(str(n)) == n. */
  lemma PyIntDecimal(n: nat)
    ensures PyInt(Decimal(n)) == Ok(n)
  {
    PyIntUnsigned("", n, "");
    assert "" + Decimal(n) + "" == Decimal(n);
  }

  /** s is the whitespace StripLeft removes followed by what it keeps. */
  lemma {:induction false} StripLeftParts(s: string)
    ensures |StripLeft(s)| <= |s|
    ensures var w := s[..|s| - |StripLeft(s)|]; AllSpace(w) && s == w + StripLeft(s)
  {
    if |s| > 0 && IsSpace(s[0]) {
      StripLeftParts(s[1..]);
      var w' := s[1..][..|s| - 1 - |StripLeft(s[1..])|];
      var w := s[..|s| - |StripLeft(s)|];
      assert w == [s[0]] + w';
      forall k | 0 <= k < |w| ensures IsSpace(w[k]) {
        if k > 0 {
          assert w[k] == w'[k - 1];
        }
      }
    } else {
      assert s[..0] == [];
    }
  }

  /** s is what StripRight keeps followed by the whitespace it removes. */
  lemma {:induction false} StripRightParts(s: string)
    ensures |StripRight(s)| <= |s|
    ensures var w := s[|StripRight(s)|..]; AllSpace(w) && s == StripRight(s) + w
  {
    if |s| > 0 && IsSpace(s[|s| - 1]) {
      var front := s[..|s| - 1];
      StripRightParts(front);
      var w' := front[|StripRight(front)|..];
      var w := s[|StripRight(s)|..];
      assert w == w' + [s[|s| - 1]];
      forall k | 0 <= k < |w| ensures IsSpace(w[k]) {
        if k < |w'| {
          assert w[k] == w'[k];
        }
      }
    } else {
      assert s[|s|..] == [];
    }
  }

  /** A sign, optional whitespace and a decimal numeral. */
  ghost predicate SignedNumeral(t: string)
  {
    |t| > 0 && (t[0] == '-' || t[0] == '+')
    && exists w2: string, d: string :: AllSpace(w2) && IsDigits(d) && t == [t[0]] + w2 + d
  }

  lemma SignedShape(t: string)
    requires |t| > 0 && (t[0] == '-' || t[0] == '+') && IsDigits(StripLeft(t[1..]))
    ensures SignedNumeral(t)
  {
    var tail := t[1..];
    var digits := StripLeft(tail);
    StripLeftParts(tail);
    var w2 := tail[..|tail| - |digits|];
    assert t == [t[0]] + w2 + digits;
  }

  /** The converse of the round trips: int() accepts only whitespace
      around a decimal numeral that is unsigned, or signed with optional
      whitespace after the sign; everything else is a ValueError. */
  lemma PyIntShape(s: string)
    requires PyInt(s).Ok?
    ensures exists w1: string, t: string, w3: string ::
      AllSpace(w1) && AllSpace(w3) && s == w1 + t + w3 && (IsDigits(t) || SignedNumeral(t))
  {
    var l := StripLeft(s);
    var t := StripRight(l);
    StripLeftParts(s);
    StripRightParts(l);
    var w1 := s[..|s| - |l|];
    var w3 := l[|t|..];
    assert s == w1 + t + w3;
    if !IsDigits(t) {
      SignedShape(t);
    }
  }

  lemma NumeralDigit(t: string)
    requires IsDigits(t) || SignedNumeral(t)
    ensures exists k :: 0 <= k < |t| && IsDigit(t[k])
  {
    if IsDigits(t) {
      assert IsDigit(t[0]);
    } else {
      var w2: string, d: string :| AllSpace(w2) && IsDigits(d) && t == [t[0]] + w2 + d;
      assert t[1 + |w2|] == d[0];
    }
  }

  /** Every string int() accepts holds a decimal digit, so an empty or
      blank setting raises ValueError. */
  lemma PyIntNeedsDigit(s: string)
    requires PyInt(s).Ok?
    ensures exists k :: 0 <= k < |s| && IsDigit(s[k])
  {
    PyIntShape(s);
    var w1: string, t: string, w3: string :| AllSpace(w1) && AllSpace(w3) && s == w1 + t + w3 && (IsDigits(t) || SignedNumeral(t));
    NumeralDigit(t);
    var k :| 0 <= k < |t| && IsDigit(t[k]);
    assert s[|w1| + k] == t[k];
  }
}
