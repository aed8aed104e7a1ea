/**
 * `JSON.stringify` applied to a string and to an array of strings: the string is
 * written between quotes with the escapes of section 7 of RFC 8259 as ECMAScript's
 * QuoteJSONString chooses them (short escapes for quote, backslash, backspace, form
 * feed, newline, carriage return and tab; `\u00xx` with lower-case hex for the other
 * control characters; everything else verbatim). A decoder for such texts is
 * defined too, and round-trip lemmas connect it to the encoder.
 */
module Json {
  import opened Wrappers

  // ---------------------------------------------------------------------------
  // Encoding

  function HexDigit(d: nat): char
    requires d < 16
  {
    "0123456789abcdef"[d]
  }

  /** The escaped form of one character inside a JSON string literal. */
  function EscapeChar(c: char): string
  {
    if c == '"' then "\\\""
    else if c == '\\' then "\\\\"
    else if c as int == 0x08 then "\\b"
    else if c as int == 0x0C then "\\f"
    else if c == '\n' then "\\n"
    else if c == '\r' then "\\r"
    else if c == '\t' then "\\t"
    else if c as int < 0x20 then "\\u00" + [HexDigit(c as int / 16), HexDigit(c as int % 16)]
    else [c]
  }

  /** The escaped body of a JSON string literal, character by character. */
  function EscapeString(s: string): string
  {
    if |s| == 0 then "" else EscapeChar(s[0]) + EscapeString(s[1..])
  }

  /** A character that needs no escape: not a control character, a quote or a backslash. */
  predicate Plain(c: char)
  {
    c as int >= 0x20 && c != '"' && c != '\\'
  }

  /** Text made of plain characters is written verbatim, and only such text is. */
  lemma {:induction false} EscapePlain(s: string)
    ensures EscapeString(s) == s <==> forall i :: 0 <= i < |s| ==> Plain(s[i])
  {
    if |s| > 0 {
      EscapePlain(s[1..]);
      EscapeLength(s[1..]);
      if Plain(s[0]) {
        assert EscapeChar(s[0]) == [s[0]];
        assert s == [s[0]] + s[1..];
        forall i | 0 < i < |s| ensures s[i] == s[1..][i - 1] { }
      } else {
        assert |EscapeChar(s[0])| >= 2;
      }
    }
  }

  /** Escaping never shortens a string. */
  lemma {:induction false} EscapeLength(s: string)
    ensures |EscapeString(s)| >= |s|
  {
    if |s| > 0 {
      EscapeLength(s[1..]);
    }
  }

  /** `JSON.stringify(s)` for a string `s`. */
  function Quote(s: string): string
  {
    "\"" + EscapeString(s) + "\""
  }

  /** The quoted elements of `row` separated by commas, without the brackets. */
  function QuotedList(row: seq<string>): string
  {
    if |row| == 0 then ""
    else if |row| == 1 then Quote(row[0])
    else Quote(row[0]) + "," + QuotedList(row[1..])
  }

  /** `JSON.stringify(row)` for an array of strings: no white space between elements. */
  function StringArray(row: seq<string>): string
  {
    "[" + QuotedList(row) + "]"
  }

  // ---------------------------------------------------------------------------
  // Decoding

  function HexValue(c: char): (r: Option<nat>)
    ensures r.Some? ==> r.value < 16
  {
    if '0' <= c <= '9' then Some(c as int - '0' as int)
    else if 'a' <= c <= 'f' then Some(c as int - 'a' as int + 10)
    else if 'A' <= c <= 'F' then Some(c as int - 'A' as int + 10)
    else None
  }

  /** The character an escape sequence at the start of `s` stands for, and the sequence's length. */
  function DecodeEscape(s: string): (r: Option<(char, nat)>)
    requires |s| >= 1 && s[0] == '\\'
    ensures r.Some? ==> 2 <= r.value.1 <= |s|
  {
    if |s| < 2 then None
    else if s[1] == '"' then Some(('"', 2))
    else if s[1] == '\\' then Some(('\\', 2))
    else if s[1] == '/' then Some(('/', 2))
    else if s[1] == 'b' then Some((0x08 as char, 2))
    else if s[1] == 'f' then Some((0x0C as char, 2))
    else if s[1] == 'n' then Some(('\n', 2))
    else if s[1] == 'r' then Some(('\r', 2))
    else if s[1] == 't' then Some(('\t', 2))
    else if s[1] == 'u' && |s| >= 6 then
      match (HexValue(s[2]), HexValue(s[3]), HexValue(s[4]), HexValue(s[5]))
      case (Some(a), Some(b), Some(c), Some(d)) =>
        var v := ((a * 16 + b) * 16 + c) * 16 + d;
        if 0xD800 <= v < 0xE000 then None else Some((v as char, 6))
      case _ => None
    else None
  }

  /**
   * Reads a string body up to its closing quote: the decoded characters and what
   * follows the quote; `None` for a bad escape, a raw control character or no quote.
   */
  function Scan(s: string): (r: Option<(string, string)>)
    ensures r.Some? ==> |r.value.1| < |s|
    decreases |s|
  {
    if |s| == 0 then None
    else if s[0] == '"' then Some(("", s[1..]))
    else if s[0] == '\\' then
      match DecodeEscape(s)
      case None => None
      case Some(ck) =>
        match Scan(s[ck.1..])
        case None => None
        case Some(p) => Some(([ck.0] + p.0, p.1))
    else if s[0] as int < 0x20 then None
    else
      match Scan(s[1..])
      case None => None
      case Some(p) => Some(([s[0]] + p.0, p.1))
  }

  /** Parses a whole JSON string literal. */
  function ParseString(j: string): Option<string>
  {
    if |j| == 0 || j[0] != '"' then None
    else
      match Scan(j[1..])
      case Some((x, "")) => Some(x)
      case _ => None
  }

  /**
   * Reads the elements of a string array after its `[`, through the closing `]`:
   * the elements and what follows the bracket.
   */
  function ElementsPrefix(s: string): (r: Option<(seq<string>, string)>)
    ensures r.Some? ==> |r.value.1| < |s|
    decreases |s|
  {
    if |s| == 0 || s[0] != '"' then None
    else
      match Scan(s[1..])
      case None => None
      case Some(p) =>
        if |p.1| > 0 && p.1[0] == ']' then Some(([p.0], p.1[1..]))
        else if |p.1| > 0 && p.1[0] == ',' then
          match ElementsPrefix(p.1[1..])
          case None => None
          case Some(q) => Some(([p.0] + q.0, q.1))
        else None
  }

  /** Reads a string array written without white space at the start of `s`, and what follows it. */
  function ArrayPrefix(s: string): (r: Option<(seq<string>, string)>)
    ensures r.Some? ==> |r.value.1| < |s|
  {
    if |s| >= 2 && s[0] == '[' && s[1] == ']' then Some(([], s[2..]))
    else if |s| > 0 && s[0] == '[' then ElementsPrefix(s[1..])
    else None
  }

  /** Parses a JSON array of strings written without white space. */
  function ParseStringArray(j: string): Option<seq<string>>
  {
    match ArrayPrefix(j)
    case Some((xs, "")) => Some(xs)
    case _ => None
  }

  // ---------------------------------------------------------------------------
  // Round trips

  /** The escape sequence of one character is read back as that character. */
  lemma ScanEscapedChar(c: char, u: string)
    ensures Scan(EscapeChar(c) + u) ==
      match Scan(u)
      case None => None
      case Some(p) => Some(([c] + p.0, p.1))
  {
    var e := EscapeChar(c);
    var s := e + u;
    if c as int < 0x20 && c != '\n' && c != '\r' && c != '\t' && c as int != 0x08 && c as int != 0x0C {
      DecodeControl(c, u);
      assert e == "\\u00" + [HexDigit(c as int / 16), HexDigit(c as int % 16)];
    } else if |e| == 2 {
      assert s[0] == '\\' && s[2..] == u;
    } else {
      assert s[0] == c && s[1..] == u;
    }
  }

  /** The `\u00xx` escape of a control character decodes to it and spans six characters. */
  lemma DecodeControl(c: char, u: string)
    requires c as int < 0x20
    ensures var s := "\\u00" + [HexDigit(c as int / 16), HexDigit(c as int % 16)] + u;
      && |s| >= 6 && s[0] == '\\' && DecodeEscape(s) == Some((c, 6)) && s[6..] == u
  {
    var s := "\\u00" + [HexDigit(c as int / 16), HexDigit(c as int % 16)] + u;
    assert s[0] == '\\' && s[1] == 'u' && s[2] == '0' && s[3] == '0';
    assert s[4] == HexDigit(c as int / 16) && s[5] == HexDigit(c as int % 16);
    assert HexValue(s[4]) == Some(c as int / 16);
    assert HexValue(s[5]) == Some(c as int % 16);
    assert s[6..] == u;
  }

  /** An escaped body followed by a quote is scanned back to the original string. */
  lemma {:induction false} ScanEscaped(s: string, t: string)
    ensures Scan(EscapeString(s) + "\"" + t) == Some((s, t))
  {
    if |s| == 0 {
      assert EscapeString(s) + "\"" + t == "\"" + t;
      assert ("\"" + t)[1..] == t;
    } else {
      ScanEscaped(s[1..], t);
      ScanEscapedChar(s[0], EscapeString(s[1..]) + "\"" + t);
      assert EscapeString(s) + "\"" + t == EscapeChar(s[0]) + (EscapeString(s[1..]) + "\"" + t);
      assert [s[0]] + s[1..] == s;
    }
  }

  /** Every string literal that `Quote` writes parses back to the string. */
  lemma QuoteRoundTrip(s: string)
    ensures ParseString(Quote(s)) == Some(s)
  {
    ScanEscaped(s, "");
    assert Quote(s)[1..] == EscapeString(s) + "\"" + "";
  }

  /** The last element, then `]` and any text. */
  lemma ElementsLast(x: string, t: string)
    ensures ElementsPrefix(Quote(x) + "]" + t) == Some(([x], t))
  {
    var s := Quote(x) + "]" + t;
    ScanEscaped(x, "]" + t);
    assert s[0] == '"' && s[1..] == EscapeString(x) + "\"" + ("]" + t);
    assert ("]" + t)[1..] == t;
  }

  /** One element, then a comma and further elements. */
  lemma ElementsNext(x: string, more: string)
    ensures ElementsPrefix(Quote(x) + "," + more) ==
      match ElementsPrefix(more)
      case None => None
      case Some(q) => Some(([x] + q.0, q.1))
  {
    var s := Quote(x) + "," + more;
    var tail := "," + more;
    ScanEscaped(x, tail);
    assert s[0] == '"' && s[1..] == EscapeString(x) + "\"" + tail;
    assert tail[0] == ',' && tail[1..] == more;
  }

  /** The comma-separated quoted elements, closed by `]`, are read back, leaving what follows. */
  lemma {:induction false} ElementsRoundTrip(row: seq<string>, t: string)
    requires |row| > 0
    ensures ElementsPrefix(QuotedList(row) + "]" + t) == Some((row, t))
  {
    if |row| == 1 {
      ElementsLast(row[0], t);
      assert QuotedList(row) == Quote(row[0]);
      assert [row[0]] == row;
    } else {
      ElementsRoundTrip(row[1..], t);
      ElementsNext(row[0], QuotedList(row[1..]) + "]" + t);
      assert QuotedList(row) + "]" + t == Quote(row[0]) + "," + (QuotedList(row[1..]) + "]" + t);
      assert [row[0]] + row[1..] == row;
    }
  }

  /** A non-empty element list starts with the opening quote of its first element. */
  lemma {:induction false} QuotedListStart(row: seq<string>)
    requires |row| > 0
    ensures |QuotedList(row)| > 0 && QuotedList(row)[0] == '"'
  {
    var q := Quote(row[0]);
    assert |q| >= 2 && q[0] == '"' by {
      var e := EscapeString(row[0]);
      assert q == "\"" + e + "\"";
    }
    if |row| > 1 {
      var rest := "," + QuotedList(row[1..]);
      assert QuotedList(row) == q + rest;
      assert (q + rest)[0] == q[0];
    }
  }

  /** A `[` that a quote follows opens a non-empty array. */
  lemma ArrayPrefixOpen(body: string)
    requires |body| > 0 && body[0] == '"'
    ensures ArrayPrefix("[" + body) == ElementsPrefix(body)
  {
    assert ("[" + body)[1..] == body;
  }

  /** A non-empty array text is read back from the front of any text, leaving the rest. */
  lemma {:induction false} NonEmptyArrayPrefix(row: seq<string>, t: string)
    requires |row| > 0
    ensures ArrayPrefix(StringArray(row) + t) == Some((row, t))
  {
    var body := QuotedList(row) + "]" + t;
    QuotedListStart(row);
    ElementsRoundTrip(row, t);
    ArrayPrefixOpen(body);
    assert StringArray(row) + t == "[" + body;
  }

  /** An array text `StringArray` writes is read back from the front of any text, leaving the rest. */
  lemma ArrayPrefixRoundTrip(row: seq<string>, t: string)
    ensures ArrayPrefix(StringArray(row) + t) == Some((row, t))
  {
    if |row| > 0 {
      NonEmptyArrayPrefix(row, t);
    } else {
      assert StringArray(row) + t == "[]" + t;
      assert ("[]" + t)[2..] == t;
    }
  }

  /** Every array text `StringArray` writes parses back to the array. */
  lemma StringArrayRoundTrip(row: seq<string>)
    ensures ParseStringArray(StringArray(row)) == Some(row)
  {
    ArrayPrefixRoundTrip(row, "");
    assert StringArray(row) + "" == StringArray(row);
  }
}
