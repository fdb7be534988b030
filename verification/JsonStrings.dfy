/** Arrays of strings as JSON text; strings as in section 7 of RFC 8259. */
module JsonStrings {
  import opened Support

  // ── writing ───────────────────────────────────────────────────────────

  function HexDigit(n: nat): char
    requires n < 16
  {
    if n < 10 then '0' + n as char else 'a' + (n - 10) as char
  }

  /** The four hexadecimal digits of a control character. */
  function HexOf(c: char): string
    requires c as nat < 0x20
  {
    "00" + [HexDigit(c as nat / 16), HexDigit(c as nat % 16)]
  }

  /** A character inside a string literal: quote, backslash and control characters are escaped. */
  function Escaped(c: char): string {
    if c == '\"' then "\\\""
    else if c == '\\' then "\\\\"
    else if c == '\U{08}' then "\\b"
    else if c == '\U{0C}' then "\\f"
    else if c == '\n' then "\\n"
    else if c == '\r' then "\\r"
    else if c == '\t' then "\\t"
    else if c as nat < 0x20 then "\\u" + HexOf(c)
    else [c]
  }

  function Literal(s: string): string {
    if |s| == 0 then "\"" else Escaped(s[0]) + Literal(s[1..])
  }

  function Quoted(s: string): string { "\"" + Literal(s) }

  function Items(ss: seq<string>): string {
    if |ss| == 0 then "]" else "," + (Quoted(ss[0]) + Items(ss[1..]))
  }

  /** The text of an array of strings, without white space. */
  function Encode(ss: seq<string>): string {
    if |ss| == 0 then "[]" else "[" + (Quoted(ss[0]) + Items(ss[1..]))
  }

  // ── reading ───────────────────────────────────────────────────────────

  /** What was read and what is left to read. */
  datatype Parsed<T> = Parsed(value: T, rest: string)

  function HexValue(c: char): Option<nat> {
    if '0' <= c <= '9' then Some(c as nat - '0' as nat)
    else if 'a' <= c <= 'f' then Some(c as nat - 'a' as nat + 10)
    else if 'A' <= c <= 'F' then Some(c as nat - 'A' as nat + 10)
    else None
  }

  function ReadHex(s: string): Option<nat> {
    if |s| == 0 then Some(0)
    else
      match (ReadHex(s[..|s| - 1]), HexValue(s[|s| - 1]))
      case (Some(high), Some(low)) => Some(16 * high + low)
      case _ => None
  }

  /** What follows a backslash; code units of surrogate pairs are refused. */
  function ReadEscape(s: string): (r: Option<Parsed<char>>)
    ensures r.Some? ==> |r.value.rest| < |s|
  {
    if |s| == 0 then None
    else match s[0]
      case '\"' => Some(Parsed('\"', s[1..]))
      case '\\' => Some(Parsed('\\', s[1..]))
      case '/' => Some(Parsed('/', s[1..]))
      case 'b' => Some(Parsed('\U{08}', s[1..]))
      case 'f' => Some(Parsed('\U{0C}', s[1..]))
      case 'n' => Some(Parsed('\n', s[1..]))
      case 'r' => Some(Parsed('\r', s[1..]))
      case 't' => Some(Parsed('\t', s[1..]))
      case 'u' =>
        if |s| < 5 then None
        else
          (match ReadHex(s[1..5])
           case Some(n) => if n < 0xD800 || 0xE000 <= n < 0x1_0000 then Some(Parsed(n as char, s[5..])) else None
           case None => None)
      case _ => None
  }

  function ReadChar(s: string): (r: Option<Parsed<char>>)
    ensures r.Some? ==> |r.value.rest| < |s|
  {
    if |s| == 0 || s[0] as nat < 0x20 || s[0] == '\"' then None
    else if s[0] == '\\' then ReadEscape(s[1..])
    else Some(Parsed(s[0], s[1..]))
  }

  /** Reads a literal up to and including its closing quote. */
  function ReadLiteral(s: string): (r: Option<Parsed<string>>)
    ensures r.Some? ==> |r.value.rest| < |s|
    decreases |s|
  {
    if |s| > 0 && s[0] == '\"' then Some(Parsed("", s[1..]))
    else
      match ReadChar(s)
      case None => None
      case Some(c) =>
        match ReadLiteral(c.rest)
        case None => None
        case Some(l) => Some(Parsed([c.value] + l.value, l.rest))
  }

  function ReadQuoted(s: string): (r: Option<Parsed<string>>)
    ensures r.Some? ==> |r.value.rest| < |s|
  {
    if |s| > 0 && s[0] == '\"' then ReadLiteral(s[1..]) else None
  }

  /** Reads what is left of an array, to the end of the text. */
  function ReadItems(s: string): Option<seq<string>>
    decreases |s|
  {
    if s == "]" then Some([])
    else if |s| > 0 && s[0] == ',' then ReadFirst(s[1..])
    else None
  }

  function ReadFirst(s: string): Option<seq<string>>
    decreases |s|
  {
    match ReadQuoted(s)
    case None => None
    case Some(q) =>
      match ReadItems(q.rest)
      case None => None
      case Some(ss) => Some([q.value] + ss)
  }

  function Decode(s: string): Option<seq<string>> {
    if s == "[]" then Some([])
    else if |s| > 0 && s[0] == '[' then ReadFirst(s[1..])
    else None
  }

  // ── the round trip ────────────────────────────────────────────────────

  lemma {:induction false} HexRoundTrip(n: nat)
    requires n < 0x20
    ensures ReadHex(HexOf(n as char)) == Some(n) && |HexOf(n as char)| == 4
  {
    var high, low := HexDigit(n / 16), HexDigit(n % 16);
    var s := "00" + [high, low];
    assert HexValue(high) == Some(n / 16) && HexValue(low) == Some(n % 16);
    assert s[..3][..2] == "00" && s[..3][2] == high && s[..3] == s[..|s| - 1];
    assert "00"[..1] == "0" && "0"[..0] == "";
    assert ReadHex("0") == Some(0);
    assert ReadHex("00") == Some(0);
    assert ReadHex(s[..3]) == Some(n / 16);
  }

  lemma {:induction false} ControlRoundTrip(c: char, t: string)
    requires |Escaped(c)| > 2
    ensures ReadEscape((Escaped(c) + t)[1..]) == Some(Parsed(c, t))
  {
    var hex := HexOf(c);
    HexRoundTrip(c as nat);
    HexEscape(hex, c as nat, t);
    assert Escaped(c) == "\\u" + hex;
    EscapedTail(hex, t);
  }

  lemma {:induction false} HexEscape(hex: string, n: nat, t: string)
    requires |hex| == 4 && ReadHex(hex) == Some(n) && n < 0xD800
    ensures ReadEscape("u" + (hex + t)) == Some(Parsed(n as char, t))
  {
    var s := "u" + (hex + t);
    assert s[0] == 'u' && s[1..5] == hex && s[5..] == t;
  }

  lemma {:induction false} EscapedTail(hex: string, t: string)
    ensures (("\\u" + hex) + t)[1..] == "u" + (hex + t)
  {
  }

  lemma {:induction false} CharRoundTrip(c: char, t: string)
    ensures ReadChar(Escaped(c) + t) == Some(Parsed(c, t))
    ensures Escaped(c)[0] != '\"'
  {
    var s := Escaped(c) + t;
    if |Escaped(c)| == 1 {
      assert s[1..] == t;
    } else {
      assert s[0] == '\\' && s[1] == Escaped(c)[1];
      if |Escaped(c)| == 2 {
        assert s[1..][1..] == t;
      } else {
        ControlRoundTrip(c, t);
      }
    }
  }

  lemma {:induction false} LiteralRoundTrip(x: string, t: string)
    ensures ReadLiteral(Literal(x) + t) == Some(Parsed(x, t))
  {
    if |x| == 0 {
      assert (Literal(x) + t)[1..] == t;
    } else {
      var rest := Literal(x[1..]) + t;
      assert Literal(x) + t == Escaped(x[0]) + rest;
      CharRoundTrip(x[0], rest);
      LiteralRoundTrip(x[1..], t);
      assert x == [x[0]] + x[1..];
    }
  }

  lemma {:induction false} QuotedRoundTrip(x: string, t: string)
    ensures ReadQuoted(Quoted(x) + t) == Some(Parsed(x, t))
    ensures |Quoted(x)| > 1 && Quoted(x)[0] == '\"'
  {
    assert (Quoted(x) + t)[1..] == Literal(x) + t;
    LiteralRoundTrip(x, t);
    if |x| > 0 { CharRoundTrip(x[0], ""); }
  }

  lemma {:induction false} AfterComma(t: string)
    ensures ReadItems("," + t) == ReadFirst(t)
  {
    var s := "," + t;
    assert s[0] == ',' && s[1..] == t;
  }

  lemma {:induction false} AfterBracket(t: string)
    requires |t| > 0 && t[0] == '\"'
    ensures Decode("[" + t) == ReadFirst(t)
  {
    var s := "[" + t;
    assert s[0] == '[' && s[1] == t[0] && s[1..] == t;
  }

  lemma {:induction false} ItemsRoundTrip(ss: seq<string>)
    ensures ReadItems(Items(ss)) == Some(ss)
    decreases |ss|, 1
  {
    if |ss| > 0 {
      var t := Quoted(ss[0]) + Items(ss[1..]);
      FirstRoundTrip(ss);
      AfterComma(t);
    }
  }

  lemma {:induction false} FirstRoundTrip(ss: seq<string>)
    requires |ss| > 0
    ensures ReadFirst(Quoted(ss[0]) + Items(ss[1..])) == Some(ss)
    decreases |ss|, 0
  {
    QuotedRoundTrip(ss[0], Items(ss[1..]));
    ItemsRoundTrip(ss[1..]);
    assert ss == [ss[0]] + ss[1..];
  }

  /** Reading back what was written gives the same list, whatever its length and its characters. */
  lemma {:induction false} RoundTrip(ss: seq<string>)
    ensures Decode(Encode(ss)) == Some(ss)
  {
    if |ss| > 0 {
      var q, i := Quoted(ss[0]), Items(ss[1..]);
      FirstRoundTrip(ss);
      QuotedRoundTrip(ss[0], "");
      AfterBracket(q + i);
    }
  }

  /** Different lists have different texts. */
  lemma {:induction false} Injective(ss: seq<string>, tt: seq<string>)
    ensures Encode(ss) == Encode(tt) <==> ss == tt
  {
    RoundTrip(ss);
    RoundTrip(tt);
  }

  // ── the text itself ───────────────────────────────────────────────────

  /** No control character stands in the text as itself. */
  predicate IsClean(text: string) {
    forall i :: 0 <= i < |text| ==> text[i] as nat >= 0x20
  }

  lemma {:induction false} EscapedIsClean(c: char)
    ensures IsClean(Escaped(c))
  {
  }

  lemma {:induction false} LiteralIsClean(s: string)
    ensures IsClean(Literal(s))
  {
    if |s| > 0 {
      EscapedIsClean(s[0]);
      LiteralIsClean(s[1..]);
    }
  }

  lemma {:induction false} ItemsAreClean(ss: seq<string>)
    ensures IsClean(Items(ss))
  {
    if |ss| > 0 {
      LiteralIsClean(ss[0]);
      ItemsAreClean(ss[1..]);
    }
  }

  /** The text of any list is one line of printable characters. */
  lemma {:induction false} TextIsClean(ss: seq<string>)
    ensures IsClean(Encode(ss))
  {
    if |ss| > 0 {
      LiteralIsClean(ss[0]);
      ItemsAreClean(ss[1..]);
    }
  }

  /** A text of characters that need no escape. */
  predicate IsPlain(s: string) {
    forall i :: 0 <= i < |s| ==> s[i] as nat >= 0x20 && s[i] != '\"' && s[i] != '\\'
  }

  lemma {:induction false} PlainLiteral(s: string)
    requires IsPlain(s)
    ensures Literal(s) == s + "\""
  {
    if |s| > 0 {
      PlainLiteral(s[1..]);
      assert s == [s[0]] + s[1..];
    }
  }

  /** Two plain strings stand in brackets, each in quotes, with a comma between. */
  lemma {:induction false} TextOfTwo(a: string, b: string)
    requires IsPlain(a) && IsPlain(b)
    ensures Encode([a, b]) == "[\"" + a + "\",\"" + b + "\"]"
  {
    PlainLiteral(a);
    PlainLiteral(b);
    var all := [a, b];
    assert all[1..] == [b];
    ItemsOfOne(b);
    assert Encode(all) == "[" + (Quoted(a) + ("," + (Quoted(b) + "]")));
    JoinedText(a, b);
  }

  lemma {:induction false} ItemsOfOne(b: string)
    ensures Items([b]) == "," + (Quoted(b) + "]")
  {
    var one := [b];
    assert one[1..] == [] && Items([]) == "]";
  }

  lemma {:induction false} JoinedText(a: string, b: string)
    ensures "[" + (("\"" + (a + "\"")) + ("," + (("\"" + (b + "\"")) + "]"))) == "[\"" + a + "\",\"" + b + "\"]"
  {
  }

  /** The short escapes, and the long one for the other control characters. */
  lemma {:induction false} KnownEscapes()
    ensures Escaped('\"') == "\\\"" && Escaped('\\') == "\\\\" && Escaped('\n') == "\\n" && Escaped('\r') == "\\r"
    ensures Escaped('\t') == "\\t" && Escaped('\U{08}') == "\\b" && Escaped('\U{0C}') == "\\f"
    ensures Escaped('\U{1F}') == "\\u001f" && Escaped('\U{00}') == "\\u0000"
  {
  }
}
