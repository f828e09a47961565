/** Outcomes of fallible operations: Go's `(value, error)` pairs and optional pointers. */
module Wrappers {
  datatype Option<+T> = None | Some(value: T)

  datatype Result<+T> = Ok(value: T) | Err(error: string)
}

/** The pieces of Go's `strings` and `strconv` packages that rktlet relies on. */
module Text {
  import opened Wrappers

  // ----- splitting at a separator -----

  /** `strings.SplitN(s, sep, 2)`: the text before and after the first separator, if there is one. */
  function SplitFirst(s: string, sep: char): (r: Option<(string, string)>)
    ensures r.None? <==> sep !in s
    ensures r.Some? ==> s == r.value.0 + [sep] + r.value.1 && sep !in r.value.0
  {
    if s == "" then None
    else if s[0] == sep then Some(("", s[1..]))
    else
      match SplitFirst(s[1..], sep)
      case None => None
      case Some((a, b)) =>
        assert s == [s[0]] + s[1..];
        Some(([s[0]] + a, b))
  }

  /** A text with a marked separator splits in one way only. */
  lemma UniqueSplit(a: string, b: string, c: string, d: string, sep: char)
    requires a + [sep] + b == c + [sep] + d
    requires sep !in a && sep !in c
    ensures a == c && b == d
  {
    var s := a + [sep] + b;
    assert s[|a|] == sep && forall i :: 0 <= i < |a| ==> s[i] == a[i];
    assert s[|c|] == sep && forall i :: 0 <= i < |c| ==> s[i] == c[i];
    assert |a| == |c|;
    assert a == s[..|a|] == s[..|c|] == c;
    assert b == s[|a| + 1..] && d == s[|c| + 1..];
  }

  /** Likewise when the separator is marked by not occurring after it. */
  lemma UniqueLastSplit(a: string, b: string, c: string, d: string, sep: char)
    requires a + [sep] + b == c + [sep] + d
    requires sep !in b && sep !in d
    ensures a == c && b == d
  {
    var s := a + [sep] + b;
    assert s[|a|] == sep && s[|c|] == sep;
    forall i | |a| < i < |s| ensures s[i] != sep { assert s[i] == b[i - |a| - 1]; }
    forall i | |c| < i < |s| ensures s[i] != sep { assert s[i] == d[i - |c| - 1]; }
    assert a == s[..|a|] == s[..|c|] == c;
    assert b == s[|a| + 1..] && d == s[|c| + 1..];
  }

  /** SplitFirst undoes joining two texts with a separator the first does not contain. */
  lemma SplitFirstOfJoin(a: string, sep: char, b: string)
    requires sep !in a
    ensures SplitFirst(a + [sep] + b, sep) == Some((a, b))
  {
    assert (a + [sep] + b)[|a|] == sep;
    var r := SplitFirst(a + [sep] + b, sep).value;
    UniqueSplit(a, b, r.0, r.1, sep);
  }

  /** `strings.Split(s, sep)` for a one-character separator. */
  function Split(s: string, sep: char): (r: seq<string>)
    ensures |r| >= 1
    ensures forall part :: part in r ==> sep !in part
    decreases |s|
  {
    match SplitFirst(s, sep)
    case None => [s]
    case Some((a, b)) => [a] + Split(b, sep)
  }

  /** `strings.Join(parts, sep)`. */
  function Join(parts: seq<string>, sep: char): string
  {
    if parts == [] then ""
    else if |parts| == 1 then parts[0]
    else parts[0] + [sep] + Join(parts[1..], sep)
  }

  lemma {:induction false} JoinOfSplit(s: string, sep: char)
    ensures Join(Split(s, sep), sep) == s
    decreases |s|
  {
    match SplitFirst(s, sep)
    case None =>
    case Some((a, b)) =>
      JoinOfSplit(b, sep);
      assert Split(s, sep)[1..] == Split(b, sep);
  }

  lemma {:induction false} SplitOfJoin(parts: seq<string>, sep: char)
    requires parts != [] && forall part :: part in parts ==> sep !in part
    ensures Split(Join(parts, sep), sep) == parts
  {
    if |parts| == 1 {
      assert parts == [parts[0]];
    } else {
      SplitFirstOfJoin(parts[0], sep, Join(parts[1..], sep));
      SplitOfJoin(parts[1..], sep);
      assert parts == [parts[0]] + parts[1..];
    }
  }

  // ----- counting fields -----

  lemma {:induction false} FieldCount(parts: seq<string>, sep: char)
    requires parts != []
    requires |Split(Join(parts, sep), sep)| == |parts|
    ensures forall part :: part in parts ==> sep !in part
  {
    if |parts| == 1 {
      assert parts == [parts[0]];
      SplitCount(parts[0], "", sep);
    } else {
      SplitCount(parts[0], Join(parts[1..], sep), sep);
      AtLeastAsManyFields(parts[1..], sep);
      FieldCount(parts[1..], sep);
      assert parts == [parts[0]] + parts[1..];
    }
  }

  /** Joining two texts adds up their fields. */
  lemma {:induction false} SplitCount(a: string, b: string, sep: char)
    ensures |Split(a + [sep] + b, sep)| == |Split(a, sep)| + |Split(b, sep)|
    ensures sep !in a <==> |Split(a, sep)| == 1
    decreases |a|
  {
    match SplitFirst(a, sep)
    case None =>
      SplitFirstOfJoin(a, sep, b);
    case Some((x, y)) =>
      assert a + [sep] + b == x + [sep] + (y + [sep] + b);
      SplitFirstOfJoin(x, sep, y + [sep] + b);
      SplitCount(y, b, sep);
  }

  lemma {:induction false} AtLeastAsManyFields(parts: seq<string>, sep: char)
    requires parts != []
    ensures |Split(Join(parts, sep), sep)| >= |parts|
  {
    if |parts| > 1 {
      SplitCount(parts[0], Join(parts[1..], sep), sep);
      AtLeastAsManyFields(parts[1..], sep);
    }
  }

  // ----- decimal numbers -----

  const UINT32_LIMIT: nat := 0x1_0000_0000

  type Uint32 = n: nat | n < UINT32_LIMIT

  predicate IsDigit(c: char) { '0' <= c <= '9' }

  predicate AllDigits(s: string) { forall i :: 0 <= i < |s| ==> IsDigit(s[i]) }

  function DigitChar(d: nat): (c: char)
    requires d < 10
    ensures IsDigit(c) && DigitValue(c) == d
  {
    ('0' as int + d) as char
  }

  function DigitValue(c: char): (d: nat)
    requires IsDigit(c)
    ensures d < 10
  {
    c as int - '0' as int
  }

  /** `%d` of a non-negative number. */
  function Decimal(n: nat): (s: string)
    ensures s != "" && AllDigits(s)
  {
    if n < 10 then [DigitChar(n)] else Decimal(n / 10) + [DigitChar(n % 10)]
  }

  /** `%d` of any number. */
  function DecimalInt(i: int): string
  {
    if i < 0 then "-" + Decimal(-i) else Decimal(i)
  }

  function DigitsValue(s: string): nat
    requires AllDigits(s)
  {
    if s == "" then 0 else 10 * DigitsValue(s[..|s| - 1]) + DigitValue(s[|s| - 1])
  }

  /** `strconv.ParseUint(s, 10, 32)`: one or more digits whose value fits 32 bits. */
  function ParseUint32(s: string): Option<nat>
  {
    if s != "" && AllDigits(s) && DigitsValue(s) < UINT32_LIMIT then Some(DigitsValue(s)) else None
  }

  const INT64_LIMIT: int := 0x8000_0000_0000_0000

  /** `strconv.ParseInt(s, 10, 64)`: the value and whether there is no error. Where the text is no number the value
      is zero, and where the number is out of range it is the bound that was passed. */
  function ParseInt64(s: string): (int, bool)
  {
    var digits := if s != "" && (s[0] == '+' || s[0] == '-') then s[1..] else s;
    if digits == "" || !AllDigits(digits) then (0, false)
    else
      var n: int := DigitsValue(digits);
      if s[0] == '-' then (if n > INT64_LIMIT then (-INT64_LIMIT, false) else (-n, true))
      else if n >= INT64_LIMIT then (INT64_LIMIT - 1, false) else (n, true)
  }

  lemma {:induction false} DigitsValueOfDecimal(n: nat)
    ensures DigitsValue(Decimal(n)) == n
  {
    if n >= 10 {
      DigitsValueOfDecimal(n / 10);
      assert Decimal(n)[..|Decimal(n)| - 1] == Decimal(n / 10);
    } else {
      assert Decimal(n)[..0] == "";
    }
  }

  lemma ParseOfDecimal(n: nat)
    ensures ParseUint32(Decimal(n)) == if n < UINT32_LIMIT then Some(n) else None
  {
    DigitsValueOfDecimal(n);
  }

  /** A text is read as a signed number exactly when it is digits behind at most one sign, and a number in range is read
      back from its text. */
  lemma ParseInt64InFull(s: string, n: int)
    ensures -INT64_LIMIT <= n < INT64_LIMIT <==> ParseInt64(DecimalInt(n)).1
    ensures -INT64_LIMIT <= n < INT64_LIMIT ==> ParseInt64(DecimalInt(n)).0 == n
    ensures n >= 0 ==> ParseInt64("+" + Decimal(n)) == ParseInt64(Decimal(n))
    ensures s == "" || s == "+" || s == "-" ==> !ParseInt64(s).1
    ensures !AllDigits(s) ==> !ParseInt64(s).1 || (s[0] in "+-" && s[1..] != "" && AllDigits(s[1..]))
  {
    DecimalIntShape(n);
    DigitsValueOfDecimal(if n < 0 then -n else n);
    if n >= 0 {
      assert ("+" + Decimal(n))[1..] == Decimal(n);
      assert IsDigit(Decimal(n)[0]);
    }
  }

  lemma DecimalInjective(m: nat, n: nat)
    requires Decimal(m) == Decimal(n)
    ensures m == n
  {
    DigitsValueOfDecimal(m);
    DigitsValueOfDecimal(n);
  }

  lemma DecimalIntShape(i: int)
    ensures DecimalInt(i) != "" && (DecimalInt(i)[0] == '-' <==> i < 0)
    ensures i < 0 ==> DecimalInt(i)[1..] == Decimal(-i)
    ensures '-' !in Decimal(if i < 0 then -i else i)
  {
  }

  lemma DecimalIntInjective(i: int, j: int)
    requires DecimalInt(i) == DecimalInt(j)
    ensures i == j
  {
    DecimalIntShape(i);
    DecimalIntShape(j);
    DecimalInjective(if i < 0 then -i else i, if j < 0 then -j else j);
  }

  /** A signed number followed by a dash can be read back: the sign and the separator never mix up. */
  lemma NumberThenDash(i: int, a: string, j: int, b: string)
    requires DecimalInt(i) + ['-'] + a == DecimalInt(j) + ['-'] + b
    ensures i == j && a == b
  {
    DecimalIntShape(i);
    DecimalIntShape(j);
    var s, t := DecimalInt(i), DecimalInt(j);
    assert s[0] == (s + ['-'] + a)[0] == (t + ['-'] + b)[0] == t[0];
    if i < 0 {
      assert s[1..] + ['-'] + a == (s + ['-'] + a)[1..] == (t + ['-'] + b)[1..] == t[1..] + ['-'] + b;
      UniqueSplit(s[1..], a, t[1..], b, '-');
      DecimalInjective(-i, -j);
    } else {
      UniqueSplit(s, a, t, b, '-');
      DecimalInjective(i, j);
    }
  }
}
