/**
 * The string operations the diagnostics rely on, written out: Go's
 * strings.Contains, strings.Split, strings.SplitN(s, sep, 2), the integer
 * verb of fmt.Sscanf, and the shape of a regular-expression match.
 */
module Text {
  import opened Wrappers

  /** sub occurs in s starting at position i. */
  predicate OccursAt(s: string, sub: string, i: int) {
    0 <= i <= |s| - |sub| && s[i..i + |sub|] == sub
  }

  /** strings.Contains(s, sub). */
  predicate Contains(s: string, sub: string) {
    exists i | 0 <= i <= |s| :: OccursAt(s, sub, i)
  }

  lemma ContainsSuffix(prefix: string, sub: string)
    ensures Contains(prefix + sub, sub)
  {
    var s := prefix + sub;
    assert s[|prefix|..|prefix| + |sub|] == sub;
    assert OccursAt(s, sub, |prefix|);
  }

  /** Position of the first occurrence of `c` in `s`, if any. */
  function IndexOf(s: string, c: char): (r: Option<nat>)
    ensures r.None? <==> c !in s
    ensures r.Some? ==> r.value < |s| && s[r.value] == c && c !in s[..r.value]
  {
    if |s| == 0 then None
    else if s[0] == c then Some(0)
    else
      match IndexOf(s[1..], c)
      case None => None
      case Some(i) =>
        assert s[..i + 1] == [s[0]] + s[1..][..i];
        Some(i + 1)
  }

  /** The first occurrence is unique: any position holding c with no c before it is the one IndexOf finds. */
  lemma IndexOfIsFirst(s: string, c: char, j: nat)
    requires j < |s| && s[j] == c && c !in s[..j]
    ensures IndexOf(s, c) == Some(j)
  {
    var i := IndexOf(s, c).value;
    NotInPrefix(s, c, j);
    NotInPrefix(s, c, i);
  }

  lemma NotInPrefix(s: string, c: char, j: nat)
    requires j <= |s| && c !in s[..j]
    ensures forall k :: 0 <= k < j ==> s[k] != c
  {
    forall k | 0 <= k < j
      ensures s[k] != c
    {
      assert s[..j][k] == s[k];
    }
  }

  /** strings.Split(s, sep) for a one-character separator: the pieces between separators. */
  function Split(s: string, sep: char): (parts: seq<string>)
    ensures |parts| >= 1
    ensures forall k :: 0 <= k < |parts| ==> sep !in parts[k]
    decreases |s|
  {
    match IndexOf(s, sep)
    case None => [s]
    case Some(i) => [s[..i]] + Split(s[i + 1..], sep)
  }

  /** strings.Join(parts, sep), the inverse of Split. */
  function Join(parts: seq<string>, sep: char): string {
    if |parts| == 0 then ""
    else if |parts| == 1 then parts[0]
    else parts[0] + [sep] + Join(parts[1..], sep)
  }

  lemma {:induction false} JoinSplit(s: string, sep: char)
    ensures Join(Split(s, sep), sep) == s
    decreases |s|
  {
    var r := IndexOf(s, sep);
    if r.Some? {
      var i := r.value;
      var rest := s[i + 1..];
      var tail := Split(rest, sep);
      JoinSplit(rest, sep);
      var parts := [s[..i]] + tail;
      assert Split(s, sep) == parts;
      assert |parts| >= 2 && parts[0] == s[..i] && parts[1..] == tail;
      assert s == s[..i] + [sep] + rest;
      calc {
        Join(parts, sep);
        parts[0] + [sep] + Join(parts[1..], sep);
        s[..i] + [sep] + rest;
      }
    } else {
      assert Split(s, sep) == [s];
    }
  }

  lemma {:induction false} SplitJoin(parts: seq<string>, sep: char)
    requires |parts| >= 1
    requires forall k :: 0 <= k < |parts| ==> sep !in parts[k]
    ensures Split(Join(parts, sep), sep) == parts
  {
    if |parts| == 1 {
      assert IndexOf(parts[0], sep).None?;
    } else {
      SplitJoin(parts[1..], sep);
      SplitCons(parts[0], sep, Join(parts[1..], sep));
      assert parts == [parts[0]] + parts[1..];
    }
  }

  /** A separator-free piece, the separator and a tail split into the piece followed by the tail's pieces. */
  lemma SplitCons(a: string, sep: char, tail: string)
    requires sep !in a
    ensures Split(a + [sep] + tail, sep) == [a] + Split(tail, sep)
  {
    var s := a + [sep] + tail;
    var i := |a|;
    assert s[..i] == a;
    IndexOfIsFirst(s, sep, i);
    assert s[i + 1..] == tail;
  }

  /**
   * strings.SplitN(s, sep, 2) when it yields two parts: the text before the
   * first separator and everything after it (which may hold more separators).
   */
  function SplitFirst(s: string, sep: char): (r: Option<(string, string)>)
    ensures r.None? <==> sep !in s
    ensures r.Some? ==> s == r.value.0 + [sep] + r.value.1 && sep !in r.value.0
  {
    match IndexOf(s, sep)
    case None => None
    case Some(i) =>
      assert s == s[..i] + [sep] + s[i + 1..];
      Some((s[..i], s[i + 1..]))
  }

  lemma SplitFirstJoin(a: string, b: string, sep: char)
    requires sep !in a
    ensures SplitFirst(a + [sep] + b, sep) == Some((a, b))
  {
    var s := a + [sep] + b;
    assert s[..|a|] == a;
    IndexOfIsFirst(s, sep, |a|);
    assert s[|a| + 1..] == b;
  }

  // ---------------------------------------------------------------------
  // The %d verb of fmt.Sscanf

  predicate IsDigit(c: char) { '0' <= c <= '9' }

  /** The blanks fmt's scanner skips before a verb (a newline is not one of them in Sscanf). */
  predicate IsSpace(c: char) { c == ' ' || c == '\t' || c == '\r' }

  predicate AllDigits(s: string) { forall k :: 0 <= k < |s| ==> IsDigit(s[k]) }

  function DigitValue(c: char): (d: nat)
    requires IsDigit(c)
    ensures d < 10
  {
    (c as int) - ('0' as int)
  }

  function DigitChar(d: nat): (c: char)
    requires d < 10
    ensures IsDigit(c) && DigitValue(c) == d
  {
    (d + '0' as int) as char
  }

  /** The number a run of decimal digits denotes. */
  function DecimalValue(ds: string): nat
    requires AllDigits(ds)
  {
    if |ds| == 0 then 0 else DecimalValue(ds[..|ds| - 1]) * 10 + DigitValue(ds[|ds| - 1])
  }

  /** The decimal digits of n, most significant first, no leading zero. */
  function NatToString(n: nat): (s: string)
    ensures |s| >= 1 && AllDigits(s)
  {
    if n < 10 then [DigitChar(n)] else NatToString(n / 10) + [DigitChar(n % 10)]
  }

  lemma {:induction false} DecimalValueOfNatToString(n: nat)
    ensures DecimalValue(NatToString(n)) == n
  {
    var s := NatToString(n);
    if n >= 10 {
      DecimalValueOfNatToString(n / 10);
      assert s[..|s| - 1] == NatToString(n / 10);
    }
  }

  /** Number of leading decimal digits of s. */
  function LeadingDigits(s: string): (n: nat)
    ensures n <= |s| && AllDigits(s[..n])
    ensures n < |s| ==> !IsDigit(s[n])
  {
    if |s| == 0 || !IsDigit(s[0]) then 0
    else
      var n := 1 + LeadingDigits(s[1..]);
      assert s[..n] == [s[0]] + s[1..][..n - 1];
      n
  }

  lemma LeadingDigitsOf(ds: string, rest: string)
    requires AllDigits(ds)
    requires rest == [] || !IsDigit(rest[0])
    ensures LeadingDigits(ds + rest) == |ds|
  {
    var s := ds + rest;
    var n := LeadingDigits(s);
    forall k | 0 <= k < |ds|
      ensures IsDigit(s[k])
    {
      assert s[k] == ds[k];
    }
    forall k | 0 <= k < n
      ensures IsDigit(s[k])
    {
      assert s[..n][k] == s[k];
    }
    assert |ds| < |s| ==> s[|ds|] == rest[0];
  }

  /** s with its leading blanks removed. */
  function TrimLeftSpaces(s: string): (r: string)
    ensures |r| <= |s| && r == s[|s| - |r|..]
    ensures |r| > 0 ==> !IsSpace(r[0])
  {
    if |s| > 0 && IsSpace(s[0]) then TrimLeftSpaces(s[1..]) else s
  }

  const MinInt64: int := -0x8000_0000_0000_0000
  const MaxInt64: int := 0x7fff_ffff_ffff_ffff

  /**
   * One %d conversion of fmt.Sscanf into a Go int: blanks are skipped, an
   * optional sign and at least one decimal digit are read, and the value must
   * fit in 64 bits. The result is the value and the unread rest of the input.
   */
  function ScanInt(s: string): (r: Option<(int, string)>)
    ensures r.Some? ==> MinInt64 <= r.value.0 <= MaxInt64 && |r.value.1| < |s|
  {
    var t := TrimLeftSpaces(s);
    if |t| > 0 && t[0] == '-' then ScanDigits(t[1..], true)
    else if |t| > 0 && t[0] == '+' then ScanDigits(t[1..], false)
    else ScanDigits(t, false)
  }

  /** The digits after the sign: at least one, and the signed value within 64 bits. */
  function ScanDigits(u: string, negative: bool): (r: Option<(int, string)>)
    ensures r.Some? ==> MinInt64 <= r.value.0 <= MaxInt64 && |r.value.1| < |u|
  {
    var n := LeadingDigits(u);
    if n == 0 then None
    else
      var magnitude := DecimalValue(u[..n]);
      var v: int := if negative then -(magnitude as int) else magnitude;
      if v < MinInt64 || MaxInt64 < v then None else Some((v, u[n..]))
  }

  /** The decimal text of a Go int, as fmt prints it. */
  function IntToString(v: int): string {
    if v < 0 then "-" + NatToString(-v) else NatToString(v)
  }

  /** Reading back a printed integer gives the integer and leaves the rest untouched. */
  lemma ScanIntOfIntToString(v: int, rest: string)
    requires MinInt64 <= v <= MaxInt64
    requires rest == [] || !IsDigit(rest[0])
    ensures ScanInt(IntToString(v) + rest) == Some((v, rest))
  {
    var magnitude: nat := if v < 0 then -v else v;
    var ds := NatToString(magnitude);
    var u := ds + rest;
    SignedText(if v < 0 then "-" else "", ds, rest);
    assert u[0] == ds[0];
    ScanIntSigned(u, v < 0);
    ScanDigitsOf(magnitude, rest, v < 0);
  }

  lemma SignedText(sign: string, ds: string, rest: string)
    ensures (if sign == "" then ds else sign + ds) + rest == sign + (ds + rest)
  {
  }

  /** A number that starts right at the sign or the first digit is read by ScanDigits. */
  lemma ScanIntSigned(u: string, negative: bool)
    requires |u| > 0 && IsDigit(u[0])
    ensures ScanInt((if negative then "-" else "") + u) == ScanDigits(u, negative)
  {
    var s := (if negative then "-" else "") + u;
    assert !IsSpace(s[0]);
    assert TrimLeftSpaces(s) == s;
    if negative {
      assert s[1..] == u;
    }
  }

  lemma ScanDigitsOf(magnitude: nat, rest: string, negative: bool)
    requires MinInt64 <= (if negative then -(magnitude as int) else magnitude) <= MaxInt64
    requires rest == [] || !IsDigit(rest[0])
    ensures ScanDigits(NatToString(magnitude) + rest, negative)
            == Some((if negative then -(magnitude as int) else magnitude, rest))
  {
    var ds := NatToString(magnitude);
    var u := ds + rest;
    DecimalValueOfNatToString(magnitude);
    LeadingDigitsOf(ds, rest);
    assert u[..|ds|] == ds;
    assert u[|ds|..] == rest;
  }

  // ---------------------------------------------------------------------
  // Regular expressions

  /** What Regexp.FindStringSubmatch finds: the whole match and its capture groups. */
  datatype Submatch = Submatch(whole: string, groups: seq<string>) {
    /** The []string Go returns: the whole match first, then each group. */
    function AsSlice(): (r: seq<string>)
      ensures |r| == 1 + |groups| && r[0] == whole
    {
      [whole] + groups
    }

    /** match[len(match)-1]: the last capture group, or the whole match when there is none. */
    function Last(): (r: string)
      ensures r == AsSlice()[|AsSlice()| - 1]
    {
      if |groups| == 0 then whole else groups[|groups| - 1]
    }
  }

  /**
   * Regular-expression semantics are not modelled: a RegexOracle gives, for a
   * pattern and a text, the leftmost match or None when the pattern does not match.
   */
  type RegexOracle = (string, string) -> Option<Submatch>

  /** Regexp.MatchString: the pattern matches somewhere in the text. */
  predicate MatchString(re: RegexOracle, pattern: string, text: string) {
    re(pattern, text).Some?
  }
}
