/**
 * The part of `JSON.stringify` the stores rely on: flat objects whose
 * property values are strings or `null`, serialised in the compact form
 * (no whitespace) and in property order. String escaping follows the
 * QuoteJSONString operation of ECMA-262: `"` and `\` and the control
 * characters below U+0020 are escaped (the five with a short form use it,
 * the others become `\u00xx` with lower-case hex digits); every other
 * character is copied.
 *
 * Beside the serialiser sits a reference decoder for that compact form, and
 * the round-trip lemmas show that a serialised body always decodes back to
 * exactly the object that was serialised.
 */
module Json {
  import opened Wrappers

  /** A property value: `null` or a string. */
  datatype Value = Null | Str(s: string)

  /** One property of an object, in insertion order. */
  datatype Member = Member(key: string, value: Value)

  // ---------------------------------------------------------------------
  // Serialisation
  // ---------------------------------------------------------------------

  function HexDigit(d: nat): char
    requires d < 16
  {
    "0123456789abcdef"[d]
  }

  /** The text QuoteJSONString emits for one character. */
  function EscapeChar(c: char): (r: string)
    ensures 0 < |r|
    ensures r[0] == '\\' <==> (c == '"' || c == '\\' || (c as int) < 0x20)
  {
    var n := c as int;
    if c == '"' then "\\\""
    else if c == '\\' then "\\\\"
    else if n == 0x08 then "\\b"
    else if n == 0x09 then "\\t"
    else if n == 0x0A then "\\n"
    else if n == 0x0C then "\\f"
    else if n == 0x0D then "\\r"
    else if n < 0x20 then "\\u00" + [HexDigit(n / 16), HexDigit(n % 16)]
    else [c]
  }

  /** The escaped characters of a string, without the surrounding quotes. */
  function QuoteChars(s: string): string
  {
    if s == [] then "" else EscapeChar(s[0]) + QuoteChars(s[1..])
  }

  /** A JSON string literal. */
  function Quote(s: string): string
  {
    "\"" + QuoteChars(s) + "\""
  }

  function Serialize(v: Value): string
  {
    match v
    case Null => "null"
    case Str(s) => Quote(s)
  }

  function SerializeMember(m: Member): string
  {
    Quote(m.key) + ":" + Serialize(m.value)
  }

  /** The members after the opening brace, each followed by `,` or, for the last, by `}`. */
  function MembersText(ms: seq<Member>): string
    requires ms != []
  {
    SerializeMember(ms[0]) + (if |ms| == 1 then "}" else "," + MembersText(ms[1..]))
  }

  /** `JSON.stringify` of a flat object with the given properties. */
  function Stringify(ms: seq<Member>): (r: string)
    ensures ms == [] ==> r == "{}"
    ensures ms != [] ==> 2 < |r| && r[0] == '{' && r[1] == '"'
  {
    if ms == [] then "{}" else "{" + MembersText(ms)
  }

  // ---------------------------------------------------------------------
  // Reference decoder for the compact form
  // ---------------------------------------------------------------------

  function HexValue(c: char): (r: Option<nat>)
    ensures r.Some? ==> r.value < 16
  {
    if '0' <= c <= '9' then Some(c as int - '0' as int)
    else if 'a' <= c <= 'f' then Some(c as int - 'a' as int + 10)
    else if 'A' <= c <= 'F' then Some(c as int - 'A' as int + 10)
    else None
  }

  /** Decodes one escape sequence; `s` is the text after the backslash. */
  function ParseEscape(s: string): (r: Option<(char, string)>)
    ensures r.Some? ==> |r.value.1| < |s|
  {
    if s == [] then None
    else if s[0] == '"' then Some(('"', s[1..]))
    else if s[0] == '\\' then Some(('\\', s[1..]))
    else if s[0] == '/' then Some(('/', s[1..]))
    else if s[0] == 'b' then Some((0x08 as char, s[1..]))
    else if s[0] == 't' then Some((0x09 as char, s[1..]))
    else if s[0] == 'n' then Some((0x0A as char, s[1..]))
    else if s[0] == 'f' then Some((0x0C as char, s[1..]))
    else if s[0] == 'r' then Some((0x0D as char, s[1..]))
    else if s[0] == 'u' && 5 <= |s| then
      match (HexValue(s[1]), HexValue(s[2]), HexValue(s[3]), HexValue(s[4]))
      case (Some(a), Some(b), Some(c), Some(d)) =>
        var n := a * 4096 + b * 256 + c * 16 + d;
        // a lone surrogate escape denotes no character
        if 0xD800 <= n < 0xE000 then None else Some((n as char, s[5..]))
      case _ => None
    else None
  }

  /** Prefixes the decoded characters of a successful parse with `c`. */
  function Cons(c: char, r: Option<(string, string)>): Option<(string, string)>
  {
    match r
    case None => None
    case Some((cs, rest)) => Some(([c] + cs, rest))
  }

  /**
   * Decodes the characters of a string literal; `s` is the text after the
   * opening quote. Yields the characters and the text after the closing
   * quote.
   */
  function ParseChars(s: string): (r: Option<(string, string)>)
    ensures r.Some? ==> |r.value.1| < |s|
    decreases |s|
  {
    if s == [] then None
    else if s[0] == '"' then Some(([], s[1..]))
    else if s[0] == '\\' then
      match ParseEscape(s[1..])
      case None => None
      case Some((c, rest)) => Cons(c, ParseChars(rest))
    else if (s[0] as int) < 0x20 then None
    else Cons(s[0], ParseChars(s[1..]))
  }

  function ParseString(s: string): (r: Option<(string, string)>)
    ensures r.Some? ==> |r.value.1| < |s|
  {
    if s != [] && s[0] == '"' then ParseChars(s[1..]) else None
  }

  function ParseValue(s: string): (r: Option<(Value, string)>)
    ensures r.Some? ==> |r.value.1| < |s|
  {
    if 4 <= |s| && s[..4] == "null" then Some((Null, s[4..]))
    else
      match ParseString(s)
      case None => None
      case Some((t, rest)) => Some((Str(t), rest))
  }

  function ParseMember(s: string): (r: Option<(Member, string)>)
    ensures r.Some? ==> |r.value.1| < |s|
  {
    match ParseString(s)
    case None => None
    case Some((k, rest)) =>
      if rest != [] && rest[0] == ':' then
        match ParseValue(rest[1..])
        case None => None
        case Some((v, after)) => Some((Member(k, v), after))
      else None
  }

  /** Decodes `member ("," member)* "}"`, which must end the text. */
  function ParseMembers(s: string): Option<seq<Member>>
    decreases |s|
  {
    match ParseMember(s)
    case None => None
    case Some((m, rest)) =>
      if rest == "}" then Some([m])
      else if rest != [] && rest[0] == ',' then
        match ParseMembers(rest[1..])
        case None => None
        case Some(ms) => Some([m] + ms)
      else None
  }

  /** Decodes a whole compact flat object. */
  function ParseObject(s: string): Option<seq<Member>>
  {
    if s == "{}" then Some([])
    else if s != [] && s[0] == '{' then ParseMembers(s[1..])
    else None
  }

  // ---------------------------------------------------------------------
  // Round trips
  // ---------------------------------------------------------------------

  lemma HexDigitValue(d: nat)
    requires d < 16
    ensures HexValue(HexDigit(d)) == Some(d)
  {
  }

  /** The characters with a two-character escape decode back from it. */
  lemma ShortEscapeParses(c: char, tail: string)
    requires c == '"' || c == '\\' || c as int in {0x08, 0x09, 0x0A, 0x0C, 0x0D}
    ensures ParseChars(EscapeChar(c) + tail) == Cons(c, ParseChars(tail))
  {
    var s := EscapeChar(c) + tail;
    assert |EscapeChar(c)| == 2;
    assert s[1..][1..] == tail;
  }

  /** The other control characters decode back from their `\u00xx` escape. */
  lemma UnicodeEscapeParses(c: char, tail: string)
    requires c as int < 0x20 && c as int !in {0x08, 0x09, 0x0A, 0x0C, 0x0D}
    ensures ParseChars(EscapeChar(c) + tail) == Cons(c, ParseChars(tail))
  {
    var n := c as int;
    var hi, lo := n / 16, n % 16;
    HexDigitValue(hi);
    HexDigitValue(lo);
    HexDigitValue(0);
    var e := (EscapeChar(c) + tail)[1..];
    assert e == "u00" + [HexDigit(hi), HexDigit(lo)] + tail;
    assert e[1] == '0' && e[2] == '0' && e[3] == HexDigit(hi) && e[4] == HexDigit(lo);
    assert e[5..] == tail;
    assert ParseEscape(e) == Some((c, tail));
  }

  /** Decoding the escape of one character yields that character. */
  lemma EscapeCharParses(c: char, tail: string)
    ensures ParseChars(EscapeChar(c) + tail) == Cons(c, ParseChars(tail))
  {
    var n := c as int;
    if c == '"' || c == '\\' || n in {0x08, 0x09, 0x0A, 0x0C, 0x0D} {
      ShortEscapeParses(c, tail);
    } else if n < 0x20 {
      UnicodeEscapeParses(c, tail);
    } else {
      var s := EscapeChar(c) + tail;
      assert s[0] == c && s[1..] == tail;
    }
  }

  // A proof aid: regroups a concatenation, which is cheaper here than inline.
  lemma AppendAssoc(a: string, b: string, c: string)
    ensures a + b + c == a + (b + c)
  {
  }

  lemma {:induction false} QuoteCharsParse(s: string, rest: string)
    ensures ParseChars(QuoteChars(s) + "\"" + rest) == Some((s, rest))
  {
    if s == [] {
      assert QuoteChars(s) + "\"" + rest == "\"" + rest;
    } else {
      var tail := QuoteChars(s[1..]) + "\"" + rest;
      QuoteCharsParse(s[1..], rest);
      assert QuoteChars(s) == EscapeChar(s[0]) + QuoteChars(s[1..]);
      AppendAssoc(EscapeChar(s[0]), QuoteChars(s[1..]) + "\"", rest);
      AppendAssoc(EscapeChar(s[0]), QuoteChars(s[1..]), "\"");
      EscapeCharParses(s[0], tail);
      assert [s[0]] + s[1..] == s;
    }
  }

  /** A character JSON strings carry as it is. */
  predicate Plain(c: char)
  {
    c != '"' && c != '\\' && 0x20 <= c as int
  }

  /** A string without quotes, backslashes or control characters is quoted verbatim. */
  lemma {:induction false} PlainQuotesVerbatim(s: string)
    requires forall i :: 0 <= i < |s| ==> Plain(s[i])
    ensures QuoteChars(s) == s
  {
    if s != [] {
      assert Plain(s[0]);
      PlainQuotesVerbatim(s[1..]);
      assert [s[0]] + s[1..] == s;
    }
  }

  /** A one-property object with plain key and value is serialised as the two strings in quotes. */
  lemma PlainMemberText(k: string, v: string)
    requires forall i :: 0 <= i < |k| ==> Plain(k[i])
    requires forall i :: 0 <= i < |v| ==> Plain(v[i])
    ensures Stringify([Member(k, Str(v))]) == "{\"" + k + "\":\"" + v + "\"}"
  {
    var m := Member(k, Str(v));
    PlainQuotesVerbatim(k);
    PlainQuotesVerbatim(v);
    assert Stringify([m]) == "{" + (SerializeMember(m) + "}");
    assert SerializeMember(m) == ("\"" + k + "\"") + ":" + ("\"" + v + "\"");
    MemberTextRegroup(k, v);
  }

  // A proof aid: regroups the pieces of a one-property object.
  lemma MemberTextRegroup(k: string, v: string)
    ensures "{" + ((("\"" + k + "\"") + ":" + ("\"" + v + "\"")) + "}") == "{\"" + k + "\":\"" + v + "\"}"
  {
  }

  /** A quoted string decodes to itself, leaving what follows untouched. */
  lemma QuoteParses(s: string, rest: string)
    ensures ParseString(Quote(s) + rest) == Some((s, rest))
  {
    var t := Quote(s) + rest;
    assert t[1..] == QuoteChars(s) + "\"" + rest;
    QuoteCharsParse(s, rest);
  }

  lemma ValueParses(v: Value, rest: string)
    ensures ParseValue(Serialize(v) + rest) == Some((v, rest))
  {
    var t := Serialize(v) + rest;
    match v
    case Null =>
      assert t[..4] == "null" && t[4..] == rest;
    case Str(s) =>
      assert t[0] == '"';
      QuoteParses(s, rest);
  }

  lemma MemberParses(m: Member, rest: string)
    ensures ParseMember(SerializeMember(m) + rest) == Some((m, rest))
  {
    var after := ":" + Serialize(m.value) + rest;
    assert SerializeMember(m) + rest == Quote(m.key) + after;
    QuoteParses(m.key, after);
    assert after[1..] == Serialize(m.value) + rest;
    ValueParses(m.value, rest);
  }

  // A proof aid: a non-empty sequence is its head before its tail.
  lemma HeadTail(ms: seq<Member>)
    requires ms != []
    ensures [ms[0]] + ms[1..] == ms
  {
  }

  /** A member followed by `,` and a decodable member list decodes as one longer list. */
  lemma MemberThenMembers(m: Member, more: string, ms: seq<Member>)
    requires ParseMembers(more) == Some(ms)
    ensures ParseMembers(SerializeMember(m) + ("," + more)) == Some([m] + ms)
  {
    var tail := "," + more;
    MemberParses(m, tail);
    assert tail != "}" && tail[0] == ',' && tail[1..] == more;
  }

  lemma {:induction false} MembersParse(ms: seq<Member>)
    requires ms != []
    ensures ParseMembers(MembersText(ms)) == Some(ms)
  {
    if |ms| == 1 {
      MemberParses(ms[0], "}");
      assert ms == [ms[0]];
    } else {
      MembersParse(ms[1..]);
      MemberThenMembers(ms[0], MembersText(ms[1..]), ms[1..]);
      HeadTail(ms);
    }
  }

  /** `JSON.parse`-style decoding undoes `Stringify` for every flat object. */
  lemma StringifyRoundTrip(ms: seq<Member>)
    ensures ParseObject(Stringify(ms)) == Some(ms)
  {
    if ms != [] {
      var body := MembersText(ms);
      assert body[0] == '"';
      assert Stringify(ms)[1..] == body;
      MembersParse(ms);
    }
  }
}
