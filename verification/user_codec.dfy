/**
 * The signed-in user's profile and its JSON text, as `saveSession` writes it
 * with `JSON.stringify` and `loadSession` reads it back with `JSON.parse`.
 */
module UserCodec {
  import opened Base
  import opened JsText

  /** The user profile the login reply carries. */
  datatype User = User(id: string, username: string, role: string)

  function HexDigit(d: nat): (c: char)
    requires d < 16
    ensures DigitValue(c) == d
  {
    if d < 10 then ('0' as int + d) as char else ('a' as int + d - 10) as char
  }

  /** How `JSON.stringify` writes one character inside a string literal. */
  function EscapeChar(c: char): string {
    if c == '"' then "\\\""
    else if c == '\\' then "\\\\"
    else if c == '\U{0008}' then "\\b"
    else if c == '\t' then "\\t"
    else if c == '\n' then "\\n"
    else if c == '\U{000C}' then "\\f"
    else if c == '\r' then "\\r"
    else if (c as int) < 0x20 then "\\u00" + [HexDigit(c as int / 16), HexDigit(c as int % 16)]
    else [c]
  }

  function Escape(s: string): string {
    if s == [] then [] else EscapeChar(s[0]) + Escape(s[1..])
  }

  /** A JSON string literal. */
  function Quote(s: string): string {
    "\"" + Escape(s) + "\""
  }

  /** `JSON.stringify(user)`. */
  function EncodeUser(u: User): string {
    "{\"id\":" + Quote(u.id) + ",\"username\":" + Quote(u.username) + ",\"role\":" + Quote(u.role) + "}"
  }

  /** One character of a JSON string literal, plain or escaped, with the
      number of characters it takes; None for text `JSON.parse` rejects. */
  function ParseChar(s: string): (r: Option<(char, nat)>)
    requires s != [] && s[0] != '"'
    ensures r.Some? ==> 1 <= r.value.1 <= |s|
  {
    if s[0] == '\\' then
      if |s| < 2 then None
      else if s[1] == '"' then Some(('"', 2))
      else if s[1] == '\\' then Some(('\\', 2))
      else if s[1] == '/' then Some(('/', 2))
      else if s[1] == 'b' then Some(('\U{0008}', 2))
      else if s[1] == 't' then Some(('\t', 2))
      else if s[1] == 'n' then Some(('\n', 2))
      else if s[1] == 'f' then Some(('\U{000C}', 2))
      else if s[1] == 'r' then Some(('\r', 2))
      else if s[1] == 'u' && |s| >= 6
              && IsDigitIn(s[2], 16) && IsDigitIn(s[3], 16) && IsDigitIn(s[4], 16) && IsDigitIn(s[5], 16) then
        var v := DigitValue(s[2]) * 4096 + DigitValue(s[3]) * 256 + DigitValue(s[4]) * 16 + DigitValue(s[5]);
        if 0xD800 <= v <= 0xDFFF then None else Some((v as char, 6))
      else None
    else if (s[0] as int) < 0x20 then None
    else Some((s[0], 1))
  }

  /** The rest of a JSON string literal after its opening quote: the decoded
      text and what follows the closing quote. */
  function ParseStringBody(s: string): Option<(string, string)>
    decreases |s|
  {
    if s == [] then None
    else if s[0] == '"' then Some(([], s[1..]))
    else
      match ParseChar(s)
      case None => None
      case Some(step) =>
        match ParseStringBody(s[step.1..])
        case None => None
        case Some(tail) => Some(([step.0] + tail.0, tail.1))
  }

  function ParseQuoted(s: string): Option<(string, string)> {
    if s != [] && s[0] == '"' then ParseStringBody(s[1..]) else None
  }

  /** What follows the literal `lit` at the start of `s`. */
  function Expect(lit: string, s: string): (r: Option<string>)
    ensures r.Some? ==> s == lit + r.value
  {
    if |lit| <= |s| && s[..|lit|] == lit then Some(s[|lit|..]) else None
  }

  /** `JSON.parse` of the stored profile, for the text `JSON.stringify` writes;
      None is a parse error. */
  function DecodeUser(s: string): Option<User> {
    var a :- Expect("{\"id\":", s);
    var id :- ParseQuoted(a);
    var b :- Expect(",\"username\":", id.1);
    var name :- ParseQuoted(b);
    var c :- Expect(",\"role\":", name.1);
    var role :- ParseQuoted(c);
    var end :- Expect("}", role.1);
    if end == [] then Some(User(id.0, name.0, role.0)) else None
  }

  lemma ExpectLiteral(lit: string, rest: string)
    ensures Expect(lit, lit + rest) == Some(rest)
  {
    assert (lit + rest)[..|lit|] == lit;
  }

  lemma ParseCharOfEscape(c: char, tail: string)
    ensures var s := EscapeChar(c) + tail;
      s != [] && s[0] != '"' && ParseChar(s) == Some((c, |EscapeChar(c)|))
  {
    var e := EscapeChar(c);
    var s := e + tail;
    assert s[..|e|] == e;
    if c != '"' && c != '\\' && c != '\U{0008}' && c != '\t' && c != '\n' && c != '\U{000C}'
       && c != '\r' && (c as int) < 0x20 {
      var hi, lo := c as int / 16, c as int % 16;
      assert s[0] == '\\' && s[1] == 'u' && s[2] == '0' && s[3] == '0';
      assert s[4] == HexDigit(hi) && s[5] == HexDigit(lo);
      assert DigitValue(s[4]) * 16 + DigitValue(s[5]) == c as int;
    }
  }

  lemma ParseStringBodyStep(x: string, c: char, k: nat, t: string, rest: string)
    requires x != [] && x[0] != '"' && ParseChar(x) == Some((c, k))
    requires ParseStringBody(x[k..]) == Some((t, rest))
    ensures ParseStringBody(x) == Some(([c] + t, rest))
  {
  }

  /** Parsing a string literal recovers the text that was escaped, and stops
      exactly after the closing quote. */
  lemma {:induction false} ParseEscaped(s: string, rest: string)
    ensures ParseStringBody(Escape(s) + "\"" + rest) == Some((s, rest))
    decreases |s|
  {
    if s == [] {
      assert Escape(s) + "\"" + rest == "\"" + rest;
    } else {
      var e := EscapeChar(s[0]);
      var tail := Escape(s[1..]) + "\"" + rest;
      var x := e + tail;
      assert Escape(s) + "\"" + rest == x;
      ParseCharOfEscape(s[0], tail);
      assert x[|e|..] == tail;
      ParseEscaped(s[1..], rest);
      ParseStringBodyStep(x, s[0], |e|, s[1..], rest);
      assert [s[0]] + s[1..] == s;
    }
  }

  lemma ParseQuotedOfQuote(s: string, rest: string)
    ensures ParseQuoted(Quote(s) + rest) == Some((s, rest))
  {
    assert (Quote(s) + rest)[1..] == Escape(s) + "\"" + rest;
    ParseEscaped(s, rest);
  }

  /** The shape of the stored text, grouped the way DecodeUser reads it. */
  lemma EncodeUserShape(u: User)
    ensures EncodeUser(u) == "{\"id\":" + (Quote(u.id) + (",\"username\":" + (Quote(u.username)
                             + (",\"role\":" + (Quote(u.role) + "}")))))
  {
  }

  lemma DecodeUserSteps(s: string, a: string, b: string, c: string, u: User)
    requires Expect("{\"id\":", s) == Some(a)
    requires ParseQuoted(a) == Some((u.id, ",\"username\":" + b))
    requires Expect(",\"username\":", ",\"username\":" + b) == Some(b)
    requires ParseQuoted(b) == Some((u.username, ",\"role\":" + c))
    requires Expect(",\"role\":", ",\"role\":" + c) == Some(c)
    requires ParseQuoted(c) == Some((u.role, "}"))
    requires Expect("}", "}") == Some([])
    ensures DecodeUser(s) == Some(u)
  {
  }

  /** A profile written by `saveSession` is read back unchanged by `loadSession`. */
  lemma DecodeEncodeUser(u: User)
    ensures DecodeUser(EncodeUser(u)) == Some(u)
  {
    var p1, p2, p3 := "{\"id\":", ",\"username\":", ",\"role\":";
    var t3 := Quote(u.role) + "}";
    var t2 := Quote(u.username) + (p3 + t3);
    var t1 := Quote(u.id) + (p2 + t2);
    EncodeUserShape(u);
    ExpectLiteral(p1, t1);
    ParseQuotedOfQuote(u.id, p2 + t2);
    ExpectLiteral(p2, t2);
    ParseQuotedOfQuote(u.username, p3 + t3);
    ExpectLiteral(p3, t3);
    ParseQuotedOfQuote(u.role, "}");
    ExpectLiteral("}", []);
    assert "}" + [] == "}";
    DecodeUserSteps(EncodeUser(u), t1, t2, t3, u);
  }

  /** Distinct profiles are stored as distinct texts. */
  lemma EncodeUserInjective(u: User, v: User)
    requires EncodeUser(u) == EncodeUser(v)
    ensures u == v
  {
    DecodeEncodeUser(u);
    DecodeEncodeUser(v);
  }
}
