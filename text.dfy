/**
 * Text primitives the translator builds its output from: padding, quoting,
 * Python's `str()` of booleans and integers, single-character `str.replace`,
 * `str.split('/')[-1]` and `"\n".join`.
 */
module Text {
  import opened Wrappers

  /** `n` blanks. */
  function Spaces(n: nat): (r: string)
    ensures |r| == n
  {
    seq(n, _ => ' ')
  }

  lemma TwoSpaces()
    ensures "\n" + Spaces(2) == "\n  "
  {
  }

  lemma FourSpaces()
    ensures "\n" + Spaces(4) == "\n    "
  {
  }

  /** Regrouping a concatenation: everything after the first piece as one sequence. */
  lemma Regroup3<T>(a: seq<T>, b: seq<T>, c: seq<T>)
    ensures a + b + c == a + (b + c)
  {
  }

  lemma Regroup5(a: string, b: string, c: string, d: string, e: string)
    ensures a + b + c + d + e == a + (b + c + d + e)
  {
  }

  lemma Regroup6(a: string, b: string, c: string, d: string, e: string, f: string)
    ensures a + b + c + d + e + f == a + (b + c + d + e + f)
  {
  }

  lemma QuoteRegroup(prefix: string, v: string)
    ensures prefix + Quote(v) == prefix + "\"" + v + "\""
  {
    var q := "\"";
    assert prefix + (q + v + q) == prefix + q + v + q;
  }

  /** Padding a key that fits appends the missing blanks. */
  lemma PadRightFits(s: string, width: nat)
    requires |s| <= width
    ensures PadRight(s, width) == s + Spaces(width - |s|)
  {
  }

  /** `s` followed by blanks up to column `width`; `s` itself when it is already that long. */
  function PadRight(s: string, width: nat): (r: string)
    ensures |r| == if |s| < width then width else |s|
  {
    if |s| >= width then s else s + Spaces(width - |s|)
  }

  /** The padded text starts with `s` and continues with blanks only. */
  lemma PadRightSpec(s: string, width: nat)
    ensures PadRight(s, width)[..|s|] == s
    ensures forall i :: |s| <= i < |PadRight(s, width)| ==> PadRight(s, width)[i] == ' '
  {
  }

  /** A double-quoted literal: the content is inserted verbatim, with no escaping. */
  function Quote(s: string): (r: string)
    ensures |r| == |s| + 2 && r[0] == '"' && r[|r| - 1] == '"'
    ensures r[1..|r| - 1] == s
  {
    "\"" + s + "\""
  }

  /** `str(b).lower()`. */
  function BoolText(b: bool): string {
    if b then "true" else "false"
  }

  predicate IsDigit(c: char) {
    '0' <= c <= '9'
  }

  predicate AllDigits(s: string) {
    forall i :: 0 <= i < |s| ==> IsDigit(s[i])
  }

  function DigitChar(d: nat): (c: char)
    requires d < 10
    ensures IsDigit(c) && c as int - '0' as int == d
  {
    (d + '0' as int) as char
  }

  /** Decimal digits of `n`, most significant first, as Python's `str(n)` writes them. */
  function NatToString(n: nat): string {
    if n < 10 then [DigitChar(n)] else NatToString(n / 10) + [DigitChar(n % 10)]
  }

  /** Python's `str(n)` for an integer: a minus sign, then the digits of the magnitude. */
  function IntToString(n: int): string {
    if n < 0 then "-" + NatToString(-n) else NatToString(n)
  }

  /** The value of a non-empty string of decimal digits. */
  function ParseNat(s: string): nat
    requires |s| > 0 && AllDigits(s)
  {
    var d := s[|s| - 1] as int - '0' as int;
    if |s| == 1 then d else 10 * ParseNat(s[..|s| - 1]) + d
  }

  /** Reads back what IntToString writes: an optional minus sign and at least one digit. */
  function ParseInt(s: string): Option<int> {
    if |s| > 1 && s[0] == '-' && AllDigits(s[1..]) then Some(0 - ParseNat(s[1..]) as int)
    else if |s| > 0 && AllDigits(s) then Some(ParseNat(s))
    else None
  }

  /** The decimal form is non-empty, all digits, and has no leading zero. */
  lemma {:induction false} NatToStringDigits(n: nat)
    ensures |NatToString(n)| > 0 && AllDigits(NatToString(n))
    ensures |NatToString(n)| > 1 ==> NatToString(n)[0] != '0'
  {
    if n >= 10 {
      NatToStringDigits(n / 10);
      var p := NatToString(n / 10);
      assert NatToString(n) == p + [DigitChar(n % 10)];
      assert NatToString(n)[0] == p[0];
      if |p| == 1 {
        assert p == [DigitChar(n / 10)];
      }
    }
  }

  /** Parsing undoes printing. */
  lemma {:induction false} ParseNatToString(n: nat)
    ensures |NatToString(n)| > 0 && AllDigits(NatToString(n))
    ensures ParseNat(NatToString(n)) == n
  {
    NatToStringDigits(n);
    if n >= 10 {
      var s := NatToString(n);
      assert s[..|s| - 1] == NatToString(n / 10);
      ParseNatToString(n / 10);
    }
  }

  /** Distinct numbers print differently. */
  lemma NatToStringInjective(m: nat, n: nat)
    requires NatToString(m) == NatToString(n)
    ensures m == n
  {
    ParseNatToString(m);
    ParseNatToString(n);
  }

  /** Parsing the printed form of any integer gives the integer back. */
  lemma IntToStringRoundTrip(n: int)
    ensures ParseInt(IntToString(n)) == Some(n)
  {
    ParseNatToString(if n < 0 then -n else n);
    if n < 0 {
      var s := IntToString(n);
      assert s[1..] == NatToString(-n);
    } else {
      NatToStringDigits(n);
      assert IntToString(n)[0] != '-';
    }
  }

  /** Python's `s.replace(from, to)` for one-character `from` and `to`. */
  function Replace(s: string, from: char, to: char): (r: string)
    ensures |r| == |s|
  {
    if |s| == 0 then ""
    else Replace(s[..|s| - 1], from, to) + [if s[|s| - 1] == from then to else s[|s| - 1]]
  }

  /** Every occurrence of `from` is rewritten and every other character is kept. */
  lemma {:induction false} ReplaceAt(s: string, from: char, to: char)
    ensures |Replace(s, from, to)| == |s|
    ensures forall i :: 0 <= i < |s| ==>
              Replace(s, from, to)[i] == if s[i] == from then to else s[i]
  {
    if |s| > 0 {
      ReplaceAt(s[..|s| - 1], from, to);
    }
  }

  /**
   * `s.split('/')[-1]`: the part of `s` after its last slash, or all of `s`
   * when it has none.
   */
  function LastSegment(s: string): (r: string)
    ensures |r| <= |s|
  {
    if |s| == 0 || s[|s| - 1] == '/' then ""
    else LastSegment(s[..|s| - 1]) + [s[|s| - 1]]
  }

  /**
   * The last segment is a slash-free suffix of `s`, and it is either all of
   * `s` or preceded by a slash.
   */
  lemma {:induction false} LastSegmentSpec(s: string)
    ensures s[|s| - |LastSegment(s)|..] == LastSegment(s)
    ensures forall i :: 0 <= i < |LastSegment(s)| ==> LastSegment(s)[i] != '/'
    ensures |LastSegment(s)| < |s| ==> s[|s| - |LastSegment(s)| - 1] == '/'
  {
    if |s| > 0 && s[|s| - 1] != '/' {
      var p, c := s[..|s| - 1], s[|s| - 1];
      LastSegmentSpec(p);
      var rp := LastSegment(p);
      assert s == p + [c];
      assert LastSegment(s) == rp + [c];
      assert s[|s| - |rp| - 1..] == p[|p| - |rp|..] + [c];
    }
  }

  /** A string without a slash is its own last segment. */
  lemma {:induction false} LastSegmentNoSlash(s: string)
    requires forall i :: 0 <= i < |s| ==> s[i] != '/'
    ensures LastSegment(s) == s
  {
    if |s| > 0 {
      LastSegmentNoSlash(s[..|s| - 1]);
    }
  }

  /** `"\n".join(chunks)`. */
  function JoinLines(chunks: seq<string>): string {
    if |chunks| == 0 then ""
    else if |chunks| == 1 then chunks[0]
    else JoinLines(chunks[..|chunks| - 1]) + "\n" + chunks[|chunks| - 1]
  }

  /** The joined text begins with the first chunk. */
  lemma {:induction false} JoinLinesStartsWithFirst(chunks: seq<string>)
    requires |chunks| > 0
    ensures |chunks[0]| <= |JoinLines(chunks)|
    ensures JoinLines(chunks)[..|chunks[0]|] == chunks[0]
  {
    if |chunks| > 1 {
      var p := chunks[..|chunks| - 1];
      JoinLinesStartsWithFirst(p);
      assert p[0] == chunks[0];
    }
  }

  /** Joining a first chunk in front of at least one more puts one newline between them. */
  lemma {:induction false} JoinLinesCons(first: string, rest: seq<string>)
    requires |rest| > 0
    ensures JoinLines([first] + rest) == first + "\n" + JoinLines(rest)
  {
    var all := [first] + rest;
    if |rest| == 1 {
      assert all[..1] == [first];
    } else {
      var init := rest[..|rest| - 1];
      JoinLinesCons(first, init);
      assert all[..|all| - 1] == [first] + init;
      var j, n, l := JoinLines(init), "\n", rest[|rest| - 1];
      assert first + n + j + n + l == first + n + (j + n + l);
    }
  }
}
