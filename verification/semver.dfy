/** The part of the `semver` crate the update checker relies on: release
    versions `MAJOR.MINOR.PATCH`, their precedence, their text form and
    `Version::parse` restricted to that form. */
module Semver {
  import opened Wrappers
  import opened Ints

  datatype Version = Version(major: u64, minor: u64, patch: u64)

  const ParseError: string := "unexpected characters in version"

  /** Precedence of release versions: major, then minor, then patch. */
  predicate Less(a: Version, b: Version)
  {
    || a.major < b.major
    || (a.major == b.major && a.minor < b.minor)
    || (a.major == b.major && a.minor == b.minor && a.patch < b.patch)
  }

  /** `Less` is a strict total order: irreflexive, transitive, and any two
      distinct versions are ordered one way or the other. */
  lemma LessIsStrictTotalOrder(a: Version, b: Version, c: Version)
    ensures !Less(a, a)
    ensures Less(a, b) && Less(b, c) ==> Less(a, c)
    ensures a != b ==> Less(a, b) || Less(b, a)
    ensures !(Less(a, b) && Less(b, a))
  {
  }

  predicate IsDigit(c: char)
  {
    '0' <= c <= '9'
  }

  predicate AllDigits(s: string)
  {
    forall i :: 0 <= i < |s| ==> IsDigit(s[i])
  }

  /** A numeric identifier: one or more digits, no leading zero. */
  predicate IsNumericIdentifier(s: string)
  {
    |s| >= 1 && AllDigits(s) && (|s| == 1 || s[0] != '0')
  }

  function DigitChar(d: nat): (c: char)
    requires d < 10
    ensures IsDigit(c)
  {
    (('0' as int) + d) as char
  }

  function DigitValue(c: char): (d: nat)
    requires IsDigit(c)
    ensures d < 10 && DigitChar(d) == c
  {
    (c as int) - ('0' as int)
  }

  /** Decimal text of `n`, as `Display` prints it. */
  function Decimal(n: nat): (s: string)
    ensures IsNumericIdentifier(s)
  {
    if n < 10 then [DigitChar(n)] else Decimal(n / 10) + [DigitChar(n % 10)]
  }

  /** The number a string of digits denotes. */
  function DecimalValue(s: string): nat
    requires AllDigits(s)
  {
    if |s| == 0 then 0
    else 10 * DecimalValue(s[..|s| - 1]) + DigitValue(s[|s| - 1])
  }

  lemma {:induction false} DecimalValueOfDecimal(n: nat)
    ensures DecimalValue(Decimal(n)) == n
  {
    if n >= 10 {
      var s := Decimal(n);
      assert s[..|s| - 1] == Decimal(n / 10);
      DecimalValueOfDecimal(n / 10);
    }
  }

  lemma {:induction false} LeadingNonZeroIsPositive(s: string)
    requires |s| >= 1 && AllDigits(s) && s[0] != '0'
    ensures DecimalValue(s) >= 1
  {
    if |s| > 1 {
      LeadingNonZeroIsPositive(s[..|s| - 1]);
    }
  }

  lemma {:induction false} DecimalOfDecimalValue(s: string)
    requires IsNumericIdentifier(s)
    ensures Decimal(DecimalValue(s)) == s
  {
    if |s| > 1 {
      var p, d := s[..|s| - 1], DigitValue(s[|s| - 1]);
      LeadingNonZeroIsPositive(p);
      DecimalOfDecimalValue(p);
      var n := DecimalValue(s);
      assert n == 10 * DecimalValue(p) + d;
      assert n / 10 == DecimalValue(p) && n % 10 == d;
      assert s == p + [s[|s| - 1]];
    }
  }

  /** `s` cut at every `'.'`; always at least one part. */
  function SplitDot(s: string): (parts: seq<string>)
    ensures |parts| >= 1
  {
    if |s| == 0 then [""]
    else
      var rest := SplitDot(s[1..]);
      if s[0] == '.' then [""] + rest
      else [[s[0]] + rest[0]] + rest[1..]
  }

  lemma {:induction false} SplitDotNoDot(x: string)
    requires '.' !in x
    ensures SplitDot(x) == [x]
  {
    if |x| > 0 {
      SplitDotNoDot(x[1..]);
      assert [x[0]] + x[1..] == x;
    }
  }

  lemma {:induction false} SplitDotFirst(x: string, y: string)
    requires '.' !in x
    ensures SplitDot(x + "." + y) == [x] + SplitDot(y)
  {
    if |x| == 0 {
      assert x + "." + y == ['.'] + y;
      assert (['.'] + y)[1..] == y;
    } else {
      var s := x + "." + y;
      assert s[1..] == x[1..] + "." + y;
      SplitDotFirst(x[1..], y);
      assert [x[0]] + x[1..] == x;
    }
  }

  /** Gluing the parts back together with `'.'` gives the original text. */
  lemma {:induction false} SplitDotThree(s: string)
    requires |SplitDot(s)| == 3
    ensures var p := SplitDot(s); s == p[0] + "." + p[1] + "." + p[2]
  {
    var p := SplitDot(s);
    var rest := SplitDot(s[1..]);
    if s[0] == '.' {
      assert |rest| == 2;
      SplitDotTwo(s[1..]);
      assert s == "." + s[1..];
    } else {
      assert |rest| == 3;
      SplitDotThree(s[1..]);
      assert s == [s[0]] + s[1..];
    }
  }

  lemma {:induction false} SplitDotTwo(s: string)
    requires |SplitDot(s)| == 2
    ensures var p := SplitDot(s); s == p[0] + "." + p[1]
  {
    var rest := SplitDot(s[1..]);
    if s[0] == '.' {
      assert |rest| == 1;
      SplitDotOne(s[1..]);
      assert s == "." + s[1..];
    } else {
      assert |rest| == 2;
      SplitDotTwo(s[1..]);
      assert s == [s[0]] + s[1..];
    }
  }

  lemma {:induction false} SplitDotOne(s: string)
    requires |SplitDot(s)| == 1
    ensures SplitDot(s)[0] == s
  {
    if |s| > 0 {
      var rest := SplitDot(s[1..]);
      assert s[0] != '.' && |rest| == 1;
      SplitDotOne(s[1..]);
      assert s == [s[0]] + s[1..];
    }
  }

  /** `Version`'s `Display`: `MAJOR.MINOR.PATCH` in decimal. */
  function Format(v: Version): string
  {
    Decimal(v.major) + "." + Decimal(v.minor) + "." + Decimal(v.patch)
  }

  /** `Version::parse` on a release version: three numeric identifiers
      separated by dots, each fitting in a `u64`; anything else is an error. */
  function Parse(s: string): (r: Result<Version>)
  {
    var parts := SplitDot(s);
    if |parts| != 3 then Err(ParseError)
    else if !(IsNumericIdentifier(parts[0]) && IsNumericIdentifier(parts[1]) && IsNumericIdentifier(parts[2]))
    then Err(ParseError)
    else
      var major, minor, patch := DecimalValue(parts[0]), DecimalValue(parts[1]), DecimalValue(parts[2]);
      if major < U64_LIMIT && minor < U64_LIMIT && patch < U64_LIMIT
      then Ok(Version(major, minor, patch))
      else Err(ParseError)
  }

  lemma NoDotInDecimal(n: nat)
    ensures '.' !in Decimal(n)
  {
  }

  lemma SplitDotJoinThree(a: string, b: string, c: string)
    requires '.' !in a && '.' !in b && '.' !in c
    ensures SplitDot(a + "." + b + "." + c) == [a, b, c]
  {
    var bc := b + "." + c;
    SplitDotNoDot(c);
    SplitDotFirst(b, c);
    SplitDotFirst(a, bc);
    assert a + "." + b + "." + c == a + "." + bc;
  }

  lemma SplitFormat(v: Version)
    ensures SplitDot(Format(v)) == [Decimal(v.major), Decimal(v.minor), Decimal(v.patch)]
  {
    NoDotInDecimal(v.major);
    NoDotInDecimal(v.minor);
    NoDotInDecimal(v.patch);
    SplitDotJoinThree(Decimal(v.major), Decimal(v.minor), Decimal(v.patch));
  }

  /** `Parse` reads back what `Format` writes. */
  lemma ParseFormat(v: Version)
    ensures Parse(Format(v)) == Ok(v)
  {
    SplitFormat(v);
    DecimalValueOfDecimal(v.major);
    DecimalValueOfDecimal(v.minor);
    DecimalValueOfDecimal(v.patch);
  }

  /** Whatever `Parse` accepts is the formatted text of what it returns. */
  lemma FormatParse(s: string)
    requires Parse(s).Ok?
    ensures Format(Parse(s).value) == s
  {
    var p := SplitDot(s);
    SplitDotThree(s);
    DecimalOfDecimalValue(p[0]);
    DecimalOfDecimalValue(p[1]);
    DecimalOfDecimalValue(p[2]);
  }

  /** `Parse` accepts exactly the text `Format` produces, and returns the
      version that text was produced from. */
  lemma ParseIsInverseOfFormat(s: string, v: Version)
    ensures Parse(s) == Ok(v) <==> s == Format(v)
  {
    if s == Format(v) {
      ParseFormat(v);
    }
    if Parse(s) == Ok(v) {
      FormatParse(s);
    }
  }
}
