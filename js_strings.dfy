/**
  The JavaScript string builtins that the upload controller relies on, stated
  as functions: `split('.')`, `join('.')`, `pop()` and `slice(0, -1)` on the
  parts, `trim()`, `toLowerCase()`, the decimal rendering of a timestamp in a
  template literal, and `JSON.stringify` of the one-property object
  `{ CONTENIDO: text }` that the OCR use cases return.
 */
module JsStrings {
  import opened Wrappers

  // ---------------------------------------------------------------------------
  // split('.') / join('.')
  // ---------------------------------------------------------------------------

  /** Index of the first '.' of `s`. */
  function FirstDot(s: string): (i: nat)
    requires '.' in s
    ensures i < |s| && s[i] == '.' && '.' !in s[..i]
  {
    if s[0] == '.' then 0 else 1 + FirstDot(s[1..])
  }

  lemma FirstDotUnique(s: string, i: nat)
    requires i < |s| && s[i] == '.' && '.' !in s[..i]
    ensures FirstDot(s) == i
  {
  }

  /** `s.split('.')`: the dot-free pieces of `s` between its dots, left to right. */
  function Split(s: string): (parts: seq<string>)
    ensures |parts| >= 1
    ensures '.' in s <==> |parts| >= 2
    ensures forall k :: 0 <= k < |parts| ==> '.' !in parts[k]
    decreases |s|
  {
    if '.' !in s then [s]
    else
      var i := FirstDot(s);
      [s[..i]] + Split(s[i + 1..])
  }

  /** `parts.join('.')`. */
  function Join(parts: seq<string>): string
  {
    if parts == [] then ""
    else if |parts| == 1 then parts[0]
    else Join(parts[..|parts| - 1]) + "." + parts[|parts| - 1]
  }

  lemma {:induction false} JoinCons(x: string, rest: seq<string>)
    requires |rest| >= 1
    ensures Join([x] + rest) == x + "." + Join(rest)
    decreases |rest|
  {
    if |rest| > 1 {
      var front := rest[..|rest| - 1];
      assert ([x] + rest)[..|rest|] == [x] + front;
      JoinCons(x, front);
    }
  }

  /** Joining the pieces of a split with the same separator gives the string back. */
  lemma {:induction false} JoinSplit(s: string)
    ensures Join(Split(s)) == s
    decreases |s|
  {
    if '.' in s {
      var i := FirstDot(s);
      JoinSplit(s[i + 1..]);
      JoinCons(s[..i], Split(s[i + 1..]));
      assert s == s[..i] + "." + s[i + 1..];
    }
  }

  /** Appending a dot and a dot-free segment adds exactly one piece to the split. */
  lemma {:induction false} SplitAppendSegment(x: string, e: string)
    requires '.' !in e
    ensures Split(x + "." + e) == Split(x) + [e]
    decreases |x|
  {
    var s := x + "." + e;
    if '.' !in x {
      assert FirstDot(s) == |x|;
      assert s[..|x|] == x;
      assert s[|x| + 1..] == e;
    } else {
      var i := FirstDot(x);
      assert s[..i] == x[..i];
      FirstDotUnique(s, i);
      assert s[..i] == x[..i];
      assert s[i + 1..] == x[i + 1..] + "." + e;
      SplitAppendSegment(x[i + 1..], e);
    }
  }

  /** `s.split('.').pop()`: the last piece. */
  function LastSegment(s: string): string
  {
    var parts := Split(s);
    parts[|parts| - 1]
  }

  /** `s.split('.').slice(0, -1).join('.')`: everything but the last piece. */
  function Stem(s: string): string
  {
    var parts := Split(s);
    Join(parts[..|parts| - 1])
  }

  /**
    The last piece is the text after the final '.', and the stem is the text
    before it; a string without a dot is all last piece and has an empty stem.
   */
  lemma SplitAtFinalDot(s: string)
    ensures '.' !in LastSegment(s)
    ensures '.' in s ==> s == Stem(s) + "." + LastSegment(s)
    ensures '.' !in s ==> LastSegment(s) == s && Stem(s) == ""
  {
    JoinSplit(s);
  }

  // ---------------------------------------------------------------------------
  // trim()
  // ---------------------------------------------------------------------------

  /** The WhiteSpace and LineTerminator code points of ECMAScript, which `trim()` removes. */
  predicate IsJsWhitespace(c: char)
  {
    var n := c as int;
    n == 0x09 || n == 0x0A || n == 0x0B || n == 0x0C || n == 0x0D || n == 0x20 ||
    n == 0xA0 || n == 0x1680 || (0x2000 <= n <= 0x200A) || n == 0x2028 || n == 0x2029 ||
    n == 0x202F || n == 0x205F || n == 0x3000 || n == 0xFEFF
  }

  function TrimStart(s: string): string
  {
    if s != [] && IsJsWhitespace(s[0]) then TrimStart(s[1..]) else s
  }

  function TrimEnd(s: string): string
  {
    if s != [] && IsJsWhitespace(s[|s| - 1]) then TrimEnd(s[..|s| - 1]) else s
  }

  /** `s.trim()`. */
  function Trim(s: string): string
  {
    TrimEnd(TrimStart(s))
  }

  /** Every character of `s` is whitespace (in particular, the empty string is blank). */
  predicate Blank(s: string)
  {
    forall i :: 0 <= i < |s| ==> IsJsWhitespace(s[i])
  }

  lemma {:induction false} TrimStartEmpty(s: string)
    ensures TrimStart(s) == "" <==> Blank(s)
    ensures TrimStart(s) != "" ==> !IsJsWhitespace(TrimStart(s)[0])
    decreases |s|
  {
    if s != [] && IsJsWhitespace(s[0]) {
      TrimStartEmpty(s[1..]);
      assert Blank(s) <==> Blank(s[1..]) by {
        if Blank(s[1..]) {
          forall i | 0 <= i < |s| ensures IsJsWhitespace(s[i]) {
            if i > 0 { assert s[i] == s[1..][i - 1]; }
          }
        }
      }
    }
  }

  lemma {:induction false} TrimEndKeepsHead(t: string)
    requires t != "" && !IsJsWhitespace(t[0])
    ensures TrimEnd(t) != ""
    decreases |t|
  {
    if IsJsWhitespace(t[|t| - 1]) {
      TrimEndKeepsHead(t[..|t| - 1]);
    }
  }

  /** `s.trim() === ''` holds exactly when `s` consists of whitespace only. */
  lemma TrimEmptyIffBlank(s: string)
    ensures Trim(s) == "" <==> Blank(s)
  {
    TrimStartEmpty(s);
    if TrimStart(s) != "" {
      TrimEndKeepsHead(TrimStart(s));
    }
  }

  // ---------------------------------------------------------------------------
  // toLowerCase()
  // ---------------------------------------------------------------------------

  function LowerChar(c: char): char
  {
    if 'A' <= c <= 'Z' then (c as int + 32) as char else c
  }

  /** `s.toLowerCase()`, on the ASCII letters. */
  function Lower(s: string): string
  {
    seq(|s|, i requires 0 <= i < |s| => LowerChar(s[i]))
  }

  // ---------------------------------------------------------------------------
  // Decimal rendering of a millisecond timestamp
  // ---------------------------------------------------------------------------

  function DigitChar(d: nat): char
    requires d < 10
  {
    ('0' as int + d) as char
  }

  /** How `${Date.now()}` renders a non-negative integer: its decimal digits. */
  function Decimal(n: nat): (r: string)
    ensures |r| >= 1
    ensures forall i :: 0 <= i < |r| ==> '0' <= r[i] <= '9'
    decreases n
  {
    if n < 10 then [DigitChar(n)] else Decimal(n / 10) + [DigitChar(n % 10)]
  }

  /** Reads a string of decimal digits back as a number. */
  function DecimalValue(s: string): nat
    requires forall i :: 0 <= i < |s| ==> '0' <= s[i] <= '9'
  {
    if s == [] then 0
    else 10 * DecimalValue(s[..|s| - 1]) + (s[|s| - 1] as int - '0' as int)
  }

  /** The rendering loses nothing: reading it back gives the timestamp. */
  lemma {:induction false} DecimalRoundTrip(n: nat)
    ensures DecimalValue(Decimal(n)) == n
    decreases n
  {
    if n >= 10 {
      DecimalRoundTrip(n / 10);
      var r := Decimal(n);
      assert r[..|r| - 1] == Decimal(n / 10);
    }
  }

  // ---------------------------------------------------------------------------
  // JSON.stringify({ CONTENIDO: text })
  // ---------------------------------------------------------------------------

  function HexDigit(d: nat): char
    requires d < 16
  {
    if d < 10 then ('0' as int + d) as char else ('a' as int + d - 10) as char
  }

  /** How JSON.stringify writes one character inside a string literal. */
  function EscapeChar(c: char): string
  {
    if c == '"' then "\\\""
    else if c == '\\' then "\\\\"
    else if c as int == 0x08 then "\\b"
    else if c == '\t' then "\\t"
    else if c == '\n' then "\\n"
    else if c as int == 0x0C then "\\f"
    else if c == '\r' then "\\r"
    else if c as int < 0x20 then "\\u00" + [HexDigit(c as int / 16), HexDigit(c as int % 16)]
    else [c]
  }

  /** The body of the JSON string literal for `s`, without its quotes. */
  function JsonEscape(s: string): string
  {
    if s == [] then "" else EscapeChar(s[0]) + JsonEscape(s[1..])
  }

  /** `JSON.stringify({ CONTENIDO: content })`. */
  function ContentJson(content: string): string
  {
    "{\"CONTENIDO\":\"" + JsonEscape(content) + "\"}"
  }

  function HexValue(c: char): Option<nat>
  {
    if '0' <= c <= '9' then Some(c as int - '0' as int)
    else if 'a' <= c <= 'f' then Some(c as int - 'a' as int + 10)
    else None
  }

  /** The character a two-character escape `\e` stands for. */
  function ShortEscape(e: char): Option<char>
  {
    if e == '"' then Some('"')
    else if e == '\\' then Some('\\')
    else if e == 'b' then Some(0x08 as char)
    else if e == 't' then Some('\t')
    else if e == 'n' then Some('\n')
    else if e == 'f' then Some(0x0C as char)
    else if e == 'r' then Some('\r')
    else None
  }

  /** The character a `\u00XY` escape stands for, read from its two hex digits. */
  function ByteEscape(hi: char, lo: char): Option<char>
  {
    match (HexValue(hi), HexValue(lo))
    case (Some(h), Some(l)) => if h < 2 then Some((16 * h + l) as char) else None
    case _ => None
  }

  /**
    Reads the body of a JSON string literal written by JsonEscape back into
    the string it denotes; None when `s` is not such a body.
   */
  function JsonUnescape(s: string): Option<string>
    decreases |s|
  {
    if s == [] then Some("")
    else if s[0] == '\\' then
      if |s| >= 2 && ShortEscape(s[1]).Some? then Prepend(ShortEscape(s[1]).value, JsonUnescape(s[2..]))
      else if |s| >= 6 && s[1..4] == "u00" && ByteEscape(s[4], s[5]).Some? then
        Prepend(ByteEscape(s[4], s[5]).value, JsonUnescape(s[6..]))
      else None
    else if s[0] == '"' || s[0] as int < 0x20 then None
    else Prepend(s[0], JsonUnescape(s[1..]))
  }

  function Prepend(c: char, rest: Option<string>): Option<string>
  {
    match rest
    case None => None
    case Some(r) => Some([c] + r)
  }

  /** True of the control characters JSON.stringify writes as `\u00XY`. */
  predicate NeedsByteEscape(c: char)
  {
    c as int < 0x20 && c as int != 0x08 && c != '\t' && c != '\n' && c as int != 0x0C && c != '\r'
  }

  lemma UnescapeByteEscape(c: char, rest: string)
    requires NeedsByteEscape(c)
    ensures JsonUnescape(EscapeChar(c) + rest) == Prepend(c, JsonUnescape(rest))
  {
    var n := c as int;
    var s := EscapeChar(c) + rest;
    assert EscapeChar(c) == "\\u00" + [HexDigit(n / 16), HexDigit(n % 16)];
    assert s[0] == '\\' && s[1] == 'u';
    assert ShortEscape(s[1]).None?;
    assert s[1..4] == "u00";
    assert ByteEscape(s[4], s[5]) == Some(c);
    assert s[6..] == rest;
  }

  lemma UnescapeShortEscape(c: char, rest: string)
    requires !NeedsByteEscape(c) && |EscapeChar(c)| == 2
    ensures JsonUnescape(EscapeChar(c) + rest) == Prepend(c, JsonUnescape(rest))
  {
    var s := EscapeChar(c) + rest;
    assert s[0] == '\\' && ShortEscape(s[1]) == Some(c);
    assert s[2..] == rest;
  }

  lemma UnescapeEscapeChar(c: char, rest: string)
    ensures JsonUnescape(EscapeChar(c) + rest) == Prepend(c, JsonUnescape(rest))
  {
    if NeedsByteEscape(c) {
      UnescapeByteEscape(c, rest);
    } else if |EscapeChar(c)| == 2 {
      UnescapeShortEscape(c, rest);
    } else {
      assert EscapeChar(c) == [c];
      assert (EscapeChar(c) + rest)[1..] == rest;
    }
  }

  /** Decoding the JSON string body of any text gives that text back. */
  lemma {:induction false} JsonRoundTrip(s: string)
    ensures JsonUnescape(JsonEscape(s)) == Some(s)
    decreases |s|
  {
    if s != [] {
      JsonRoundTrip(s[1..]);
      UnescapeEscapeChar(s[0], JsonEscape(s[1..]));
      assert [s[0]] + s[1..] == s;
    }
  }
}
