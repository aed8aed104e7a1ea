/**
 * String operations of the JavaScript and Java runtimes that the REPLs and the CSV
 * backend rely on: `String.prototype.split` with a one-character separator (empty
 * segments kept), Java's `String.split` (trailing empty segments dropped),
 * `java.util.StringTokenizer` (empty tokens skipped), decimal rendering of numbers,
 * and `Integer.parseInt`.
 */
module Text {
  import opened Wrappers

  // ---------------------------------------------------------------------------
  // Splitting on a set of delimiter characters, empty segments kept

  /** The segments of `s` between delimiters; consecutive delimiters give empty segments. */
  function SplitAny(s: string, delims: set<char>): (parts: seq<string>)
    ensures |parts| >= 1
    decreases |s|
  {
    if |s| == 0 then [""]
    else
      var rest := SplitAny(s[1..], delims);
      if s[0] in delims then [""] + rest else [[s[0]] + rest[0]] + rest[1..]
  }

  /** JavaScript's `s.split(d)` for a one-character separator `d`. */
  function Split(s: string, d: char): seq<string>
  {
    SplitAny(s, {d})
  }

  /** Joins `parts` with the separator `d` between neighbours (JavaScript's `parts.join(d)`). */
  function Join(parts: seq<string>, d: char): string
  {
    if |parts| == 0 then ""
    else if |parts| == 1 then parts[0]
    else parts[0] + [d] + Join(parts[1..], d)
  }

  /** Number of occurrences of `c` in `s`. */
  function Occurrences(s: string, c: char): nat
  {
    if |s| == 0 then 0 else (if s[0] == c then 1 else 0) + Occurrences(s[1..], c)
  }

  /** Joining the segments with the separator gives back exactly the input. */
  lemma {:induction false} SplitJoin(s: string, d: char)
    ensures Join(Split(s, d), d) == s
  {
    if |s| > 0 {
      SplitJoin(s[1..], d);
      var rest := Split(s[1..], d);
      if s[0] == d {
        assert Split(s, d) == [""] + rest;
      } else {
        assert Split(s, d) == [[s[0]] + rest[0]] + rest[1..];
        if |rest| > 1 {
          assert Join(rest, d) == rest[0] + [d] + Join(rest[1..], d);
          assert ([[s[0]] + rest[0]] + rest[1..])[1..] == rest[1..];
        }
      }
    }
  }

  /** There is one more segment than there are separators, and no segment holds one. */
  lemma {:induction false} SplitShape(s: string, d: char)
    ensures |Split(s, d)| == Occurrences(s, d) + 1
    ensures forall i :: 0 <= i < |Split(s, d)| ==> d !in Split(s, d)[i]
  {
    if |s| > 0 {
      SplitShape(s[1..], d);
      var rest := Split(s[1..], d);
      if s[0] != d {
        var parts := Split(s, d);
        assert parts == [[s[0]] + rest[0]] + rest[1..];
        forall i | 0 <= i < |parts| ensures d !in parts[i] {
          if i > 0 { assert parts[i] == rest[i]; }
        }
      }
    }
  }

  /** A string without the separator splits into itself alone. */
  lemma {:induction false} SplitWithout(s: string, d: char)
    requires d !in s
    ensures Split(s, d) == [s]
  {
    if |s| > 0 {
      assert d !in s[1..] by {
        forall i | 0 <= i < |s| - 1 ensures s[1..][i] != d { assert s[1..][i] == s[i + 1]; }
      }
      SplitWithout(s[1..], d);
      assert [s[0]] + s[1..] == s;
    }
  }

  /** A separator-free word, the separator and any text: the word is the first segment and the text's segments follow. */
  lemma SplitAfterWord(w: string, rest: string, d: char)
    requires d !in w
    ensures Split(w + [d] + rest, d) == [w] + Split(rest, d)
  {
    forall i | 0 <= i < |w| ensures w[i] !in {d} { }
    var t := [d] + rest;
    SplitAnyPrefix(w, t, {d});
    assert t[0] == d && t[1..] == rest;
    assert SplitAny(t, {d}) == [""] + SplitAny(rest, {d});
    assert w + [d] + rest == w + t;
    assert w + "" == w;
  }

  /** A string with exactly one separator is its two segments joined by it. */
  lemma SplitInTwo(s: string, d: char)
    requires |Split(s, d)| == 2
    ensures s == Split(s, d)[0] + [d] + Split(s, d)[1]
  {
    SplitJoin(s, d);
    var parts := Split(s, d);
    assert Join(parts, d) == parts[0] + [d] + Join(parts[1..], d);
  }

  // ---------------------------------------------------------------------------
  // Java's String.split with a one-character regular expression and limit 0

  /** `parts` without its trailing run of empty strings. */
  function DropTrailingEmpty(parts: seq<string>): seq<string>
  {
    if |parts| > 0 && parts[|parts| - 1] == "" then DropTrailingEmpty(parts[..|parts| - 1]) else parts
  }

  /** Dropping the trailing empty strings keeps a prefix, removes only empty strings, and leaves no empty last element. */
  lemma {:induction false} DropTrailingEmptySpec(parts: seq<string>)
    ensures var r := DropTrailingEmpty(parts);
      && |r| <= |parts| && r == parts[..|r|]
      && (forall i :: |r| <= i < |parts| ==> parts[i] == "")
      && (|r| > 0 ==> r[|r| - 1] != "")
  {
    if |parts| > 0 && parts[|parts| - 1] == "" {
      var init := parts[..|parts| - 1];
      DropTrailingEmptySpec(init);
      assert DropTrailingEmpty(parts) == DropTrailingEmpty(init);
      assert forall i :: 0 <= i < |init| ==> init[i] == parts[i];
    }
  }

  /**
   * Java's `s.split(",")` for the separator character `d`: the whole string when
   * `d` does not occur, otherwise the segments with trailing empty ones removed.
   */
  function JavaSplit(s: string, d: char): seq<string>
  {
    if d !in s then [s] else DropTrailingEmpty(Split(s, d))
  }

  /**
   * Java's split is JavaScript's split with the trailing empty segments cut off,
   * except that a string without the separator (the empty string included) is kept whole.
   */
  lemma JavaSplitSpec(s: string, d: char)
    ensures d !in s ==> JavaSplit(s, d) == [s] == Split(s, d)
    ensures d in s ==>
      var p, r := Split(s, d), JavaSplit(s, d);
      && |r| <= |p| && r == p[..|r|]
      && (forall i :: |r| <= i < |p| ==> p[i] == "")
      && (|r| > 0 ==> r[|r| - 1] != "")
  {
    if d !in s { SplitWithout(s, d); } else { DropTrailingEmptySpec(Split(s, d)); }
  }

  // ---------------------------------------------------------------------------
  // java.util.StringTokenizer with returnDelims == false

  /** The segments of `parts` that are not empty, in order. */
  function NonEmpty(parts: seq<string>): seq<string>
  {
    if |parts| == 0 then []
    else if parts[0] == "" then NonEmpty(parts[1..])
    else [parts[0]] + NonEmpty(parts[1..])
  }

  /** Index of the first delimiter in `s`, or `|s|` when there is none. */
  function RunEnd(s: string, delims: set<char>): (e: nat)
    ensures e <= |s|
    ensures forall i :: 0 <= i < e ==> s[i] !in delims
    ensures e < |s| ==> s[e] in delims
  {
    if |s| == 0 || s[0] in delims then 0 else 1 + RunEnd(s[1..], delims)
  }

  /**
   * The tokens a `StringTokenizer(s, delims)` hands out: it skips delimiters, then
   * takes the maximal run of non-delimiters as the next token.
   */
  function Tokens(s: string, delims: set<char>): seq<string>
    decreases |s|
  {
    if |s| == 0 then []
    else if s[0] in delims then Tokens(s[1..], delims)
    else
      var e := RunEnd(s, delims);
      [s[..e]] + Tokens(s[e..], delims)
  }

  /** `StringTokenizer.countTokens()`. */
  function CountTokens(s: string, delims: set<char>): nat
  {
    |Tokens(s, delims)|
  }

  /** Every token holds at least one character, so there are no more tokens than characters. */
  lemma {:induction false} CountTokensAtMostLength(s: string, delims: set<char>)
    ensures CountTokens(s, delims) <= |s|
    decreases |s|
  {
    if |s| > 0 {
      if s[0] in delims {
        CountTokensAtMostLength(s[1..], delims);
      } else {
        CountTokensAtMostLength(s[RunEnd(s, delims)..], delims);
      }
    }
  }

  /** Splitting a delimiter-free prefix `w` off `w + t` glues it to the first segment of `t`. */
  lemma {:induction false} SplitAnyPrefix(w: string, t: string, delims: set<char>)
    requires forall i :: 0 <= i < |w| ==> w[i] !in delims
    ensures SplitAny(w + t, delims) == [w + SplitAny(t, delims)[0]] + SplitAny(t, delims)[1..]
  {
    if |w| > 0 {
      var u := w + t;
      SplitAnyPrefix(w[1..], t, delims);
      var T := SplitAny(t, delims);
      assert u[0] == w[0] && u[1..] == w[1..] + t;
      var R := SplitAny(u[1..], delims);
      assert R == [w[1..] + T[0]] + T[1..];
      assert SplitAny(u, delims) == [[u[0]] + R[0]] + R[1..];
      assert [w[0]] + (w[1..] + T[0]) == w + T[0];
    } else {
      var T := SplitAny(t, delims);
      assert w + t == t && w + T[0] == T[0];
      assert [T[0]] + T[1..] == T;
    }
  }

  /** The tokens are exactly the non-empty segments between delimiters. */
  lemma {:induction false} TokensAreNonEmptySegments(s: string, delims: set<char>)
    ensures Tokens(s, delims) == NonEmpty(SplitAny(s, delims))
    decreases |s|
  {
    if |s| > 0 {
      if s[0] in delims {
        TokensAreNonEmptySegments(s[1..], delims);
      } else {
        var e := RunEnd(s, delims);
        var w, t := s[..e], s[e..];
        assert s == w + t;
        SplitAnyPrefix(w, t, delims);
        if |t| == 0 {
          assert SplitAny(t, delims) == [""];
          assert w + "" == w;
          assert SplitAny(s, delims) == [w];
        } else {
          TokensAreNonEmptySegments(t[1..], delims);
          assert t[0] in delims;
          assert SplitAny(t, delims) == [""] + SplitAny(t[1..], delims);
          assert w + "" == w;
          assert SplitAny(s, delims) == [w] + SplitAny(t[1..], delims);
          assert Tokens(t, delims) == Tokens(t[1..], delims);
        }
      }
    }
  }

  /** Every token is non-empty and free of delimiters. */
  lemma {:induction false} TokensShape(s: string, delims: set<char>)
    ensures forall i :: 0 <= i < |Tokens(s, delims)| ==>
      Tokens(s, delims)[i] != "" && forall j :: 0 <= j < |Tokens(s, delims)[i]| ==> Tokens(s, delims)[i][j] !in delims
    decreases |s|
  {
    if |s| > 0 {
      if s[0] in delims {
        TokensShape(s[1..], delims);
      } else {
        var e := RunEnd(s, delims);
        TokensShape(s[e..], delims);
      }
    }
  }

  // ---------------------------------------------------------------------------
  // Decimal numbers

  /** JavaScript's and Java's decimal digit characters. */
  predicate IsDigit(c: char)
  {
    '0' <= c <= '9'
  }

  predicate AllDigits(s: string)
  {
    forall i :: 0 <= i < |s| ==> IsDigit(s[i])
  }

  function DigitChar(d: nat): (c: char)
    requires d < 10
    ensures IsDigit(c) && c as int - '0' as int == d
  {
    "0123456789"[d]
  }

  /** Shortest decimal rendering of `n`, as `String(n)` and `Integer.toString(n)` produce it. */
  function NatToString(n: nat): (s: string)
    ensures |s| > 0 && AllDigits(s)
    decreases n
  {
    if n < 10 then [DigitChar(n)] else NatToString(n / 10) + [DigitChar(n % 10)]
  }

  /** Decimal rendering of a signed integer: a minus sign before the magnitude when negative. */
  function IntToString(i: int): string
  {
    if i < 0 then "-" + NatToString(-i) else NatToString(i)
  }

  /** The value of a string of decimal digits, most significant first. */
  function DigitsValue(s: string): nat
    requires AllDigits(s)
  {
    if |s| == 0 then 0 else DigitsValue(s[..|s| - 1]) * 10 + (s[|s| - 1] as int - '0' as int)
  }

  /** Reading back the decimal rendering of `n` gives `n`, and it has no leading zero. */
  lemma {:induction false} NatToStringValue(n: nat)
    ensures DigitsValue(NatToString(n)) == n
    ensures NatToString(n)[0] == '0' ==> n == 0
    decreases n
  {
    if n >= 10 {
      NatToStringValue(n / 10);
      var s := NatToString(n);
      assert s[..|s| - 1] == NatToString(n / 10);
    }
  }

  const INT_MIN: int := -0x8000_0000
  const INT_MAX: int := 0x7fff_ffff

  /**
   * `Integer.parseInt(s)` in radix 10: an optional leading `-` or `+`, then one or
   * more digits, with a value inside the 32-bit range; anything else is a
   * `NumberFormatException` (here `None`).
   */
  function ParseInt(s: string): (r: Option<int>)
    ensures r.Some? ==> INT_MIN <= r.value <= INT_MAX
    ensures r.Some? ==> |s| > 0 && (IsDigit(s[0]) || s[0] == '-' || s[0] == '+')
  {
    if |s| == 0 then None
    else
      var start := if s[0] == '-' || s[0] == '+' then 1 else 0;
      var digits := s[start..];
      if |digits| == 0 || !AllDigits(digits) then None
      else
        var v: int := if s[0] == '-' then -(DigitsValue(digits) as int) else DigitsValue(digits);
        if INT_MIN <= v <= INT_MAX then Some(v) else None
  }

  /** A plain digit string in range parses to its value. */
  lemma ParseUnsigned(m: string)
    requires |m| > 0 && AllDigits(m) && DigitsValue(m) <= INT_MAX
    ensures ParseInt(m) == Some(DigitsValue(m) as int)
  {
    assert IsDigit(m[0]);
    assert m[0..] == m;
  }

  /** A minus sign before a digit string in range parses to the negated value. */
  lemma ParseNegative(m: string)
    requires |m| > 0 && AllDigits(m) && DigitsValue(m) <= -INT_MIN
    ensures ParseInt("-" + m) == Some(-(DigitsValue(m) as int))
  {
    var s := "-" + m;
    assert s[0] == '-' && s[1..] == m;
  }

  /** A leading plus sign is accepted and does not change the value. */
  lemma ParsePlus(m: string)
    requires |m| > 0 && AllDigits(m) && DigitsValue(m) <= INT_MAX
    ensures ParseInt("+" + m) == Some(DigitsValue(m) as int)
  {
  }

  /** A numeral above the 32-bit maximum is rejected, with or without a plus sign. */
  lemma ParseOutOfRange(m: string)
    requires |m| > 0 && AllDigits(m) && DigitsValue(m) > INT_MAX
    ensures ParseInt(m).None? && ParseInt("+" + m).None?
  {
  }

  /** A negative numeral below the 32-bit minimum is rejected. */
  lemma ParseNegativeOutOfRange(m: string)
    requires |m| > 0 && AllDigits(m) && DigitsValue(m) > -INT_MIN
    ensures ParseInt("-" + m).None?
  {
  }

  /** Every 32-bit integer survives rendering in decimal and parsing back. */
  lemma IntRoundTrip(i: int)
    requires INT_MIN <= i <= INT_MAX
    ensures ParseInt(IntToString(i)) == Some(i)
  {
    var n: nat := if i < 0 then -i else i;
    var m := NatToString(n);
    NatToStringValue(n);
    if i < 0 {
      assert IntToString(i) == "-" + m;
      ParseNegative(m);
    } else {
      assert IntToString(i) == m;
      ParseUnsigned(m);
    }
  }

  // ---------------------------------------------------------------------------
  // Prefixes

  /** Java's `s.startsWith(prefix)`. */
  predicate StartsWith(s: string, prefix: string)
  {
    |prefix| <= |s| && s[..|prefix|] == prefix
  }
}
