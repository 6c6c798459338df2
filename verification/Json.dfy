/** `jsonEscape` against a decoder for JSON strings (section 7 of RFC 8259). */
module Json {
  import opened Wrappers
  import opened Strings

  function HexDigit(n: nat): char
    requires n < 16
  {
    if n < 10 then ('0' as int + n) as char else ('a' as int + n - 10) as char
  }

  /** One character of the input, as the switch of src/Connection.cpp:159-177 prints it. */
  function EscapeChar(c: char): (r: string)
    ensures 1 <= |r| <= 6
  {
    if c == '"' then "\\\""
    else if c == '\\' then "\\\\"
    else if c == '\n' then "\\n"
    else if c == '\r' then "\\r"
    else if c == '\t' then "\\t"
    else if c < 32 as char then "\\u00" + [HexDigit(c as int / 16), HexDigit(c as int % 16)]
    else [c]
  }

  function Escape(s: string): (r: string)
    ensures |s| <= |r| <= 6 * |s|
  {
    if s == "" then "" else EscapeChar(s[0]) + Escape(s[1..])
  }

  /** Which characters are escaped, and how long: the five with a letter of their own or a
      backslash in two characters, the other control characters in six. */
  lemma EscapeLengths(c: char)
    ensures |EscapeChar(c)| == if c in "\"\\\n\r\t" then 2 else if c < 32 as char then 6 else 1
    ensures |EscapeChar(c)| == 6 ==> forall i :: 2 <= i < 6 ==> EscapeChar(c)[i] in "0123456789abcdef"
  {
    if |EscapeChar(c)| == 6 {
      LowerCaseHex(c as int / 16);
      LowerCaseHex(c as int % 16);
    }
  }

  lemma LowerCaseHex(n: nat)
    requires n < 16
    ensures HexDigit(n) in "0123456789abcdef"
  {
    assert "0123456789abcdef"[n] == HexDigit(n);
  }

  lemma {:induction false} EscapeAppends(s: string, c: char)
    ensures Escape(s + [c]) == Escape(s) + EscapeChar(c)
  {
    hide EscapeChar;
    if s == "" {
      assert s + [c] == [c] && [c][1..] == "";
    } else {
      assert (s + [c])[1..] == s[1..] + [c];
      EscapeAppends(s[1..], c);
    }
  }

  /** src/Connection.cpp:153. */
  method JsonEscape(s: string) returns (out: string)
    ensures out == Escape(s)
  {
    out := "";
    for i := 0 to |s|
      invariant out == Escape(s[..i])
    {
      EscapeAppends(s[..i], s[i]);
      assert s[..i + 1] == s[..i] + [s[i]];
      out := out + EscapeChar(s[i]);
    }
    assert s[..|s|] == s;
  }

  // ---- the decoder ----

  function HexValue(c: char): (r: Option<nat>)
    ensures r.Some? ==> r.value < 16
  {
    if '0' <= c <= '9' then Some(c as int - '0' as int)
    else if 'a' <= c <= 'f' then Some(c as int - 'a' as int + 10)
    else if 'A' <= c <= 'F' then Some(c as int - 'A' as int + 10)
    else None
  }

  /** The code unit written by four hexadecimal digits. */
  function Hex4(s: string): (r: Option<nat>)
    ensures r.Some? ==> r.value < 65536
  {
    if |s| < 4 then None
    else match (HexValue(s[0]), HexValue(s[1]), HexValue(s[2]), HexValue(s[3]))
      case (Some(a), Some(b), Some(c), Some(d)) => Some(4096 * a + 256 * b + 16 * c + d)
      case _ => None
  }

  function SimpleEscape(c: char): Option<char> {
    if c == '"' || c == '\\' || c == '/' then Some(c)
    else if c == 'b' then Some(8 as char)
    else if c == 'f' then Some(12 as char)
    else if c == 'n' then Some('\n')
    else if c == 'r' then Some('\r')
    else if c == 't' then Some('\t')
    else None
  }

  datatype Decoded = Decoded(value: string, rest: string)

  function Prefix(bytes: string, d: Option<Decoded>): Option<Decoded> {
    if d.None? then None else Some(Decoded(bytes + d.value.value, d.value.rest))
  }

  /** The bytes of a code unit in UTF-8; surrogates have none of their own. */
  function Utf8(n: nat): Option<string>
    requires n < 65536
  {
    if n < 128 then Some([n as char])
    else if n < 2048 then Some([(192 + n / 64) as char, (128 + n % 64) as char])
    else if 55296 <= n < 57344 then None
    else Some([(224 + n / 4096) as char, (128 + n / 64 % 64) as char, (128 + n % 64) as char])
  }

  /** Read a string after its opening quote: its bytes and what follows its closing quote.
      An unescaped control character, an unknown escape or a missing quote is an error;
      surrogate pairs are not read. */
  function Decode(s: string): Option<Decoded> {
    if s == "" then None
    else if s[0] == '"' then Some(Decoded("", s[1..]))
    else if s[0] < 32 as char then None
    else if s[0] != '\\' then Prefix([s[0]], Decode(s[1..]))
    else if |s| < 2 then None
    else if s[1] == 'u' then
      match Hex4(s[2..])
      case Some(n) => if Utf8(n).Some? then Prefix(Utf8(n).value, Decode(s[6..])) else None
      case None => None
    else
      match SimpleEscape(s[1])
      case Some(c) => Prefix([c], Decode(s[2..]))
      case None => None
  }

  lemma HexRoundTrip(n: nat)
    requires n < 16
    ensures HexValue(HexDigit(n)) == Some(n)
  {
  }

  /** One escaped character decodes to itself and leaves the rest alone. */
  lemma DecodeChar(c: char, rest: string)
    ensures Decode(EscapeChar(c) + rest) == Prefix([c], Decode(rest))
  {
    var e := EscapeChar(c);
    var s := e + rest;
    assert s[|e|..] == rest;
    if c < 32 as char && c != '\n' && c != '\r' && c != '\t' {
      HexRoundTrip(c as int / 16);
      HexRoundTrip(c as int % 16);
      assert s[2..][0] == '0' && s[2..][1] == '0' && s[2..][2] == e[4] && s[2..][3] == e[5];
      assert Hex4(s[2..]) == Some(c as int);
    }
  }

  /** Round trip: the escaped text, closed by a quote, decodes to the original whatever
      follows; so the field ends exactly at its closing quote and nothing is injected. */
  lemma {:induction false} EscapeRoundTrip(s: string, after: string)
    ensures Decode(Escape(s) + "\"" + after) == Some(Decoded(s, after))
  {
    if s == "" {
      assert Escape(s) + "\"" + after == "\"" + after;
    } else {
      var tail := Escape(s[1..]) + "\"" + after;
      assert Escape(s) + "\"" + after == EscapeChar(s[0]) + tail;
      DecodeChar(s[0], tail);
      EscapeRoundTrip(s[1..], after);
      assert s == [s[0]] + s[1..];
    }
  }

  /** A character that ends a JSON string, or that it may not contain. */
  predicate Breaks(e: string, i: nat)
    requires i < |e|
  {
    e[i] < 32 as char || (e[i] == '"' && (i == 0 || e[i - 1] != '\\'))
  }

  /** No control character and no quote without its backslash comes out. */
  lemma {:induction false} EscapeIsSafe(s: string, i: nat)
    requires i < |Escape(s)|
    ensures !Breaks(Escape(s), i)
  {
    var e := EscapeChar(s[0]);
    if i < |e| {
      assert Escape(s)[i] == e[i];
      assert i > 0 ==> Escape(s)[i - 1] == e[i - 1];
    } else {
      var t := Escape(s[1..]);
      EscapeIsSafe(s[1..], i - |e|);
      FirstIsNoQuote(s[1..]);
      assert Escape(s)[i] == t[i - |e|];
      assert i > |e| ==> Escape(s)[i - 1] == t[i - |e| - 1];
    }
  }

  lemma FirstIsNoQuote(s: string)
    requires s != ""
    ensures Escape(s)[0] != '"'
  {
  }

  // ---- the profile reply ----

  /** The body of a 200 profile reply (src/Connection.cpp:659). */
  function ProfileBody(username: string): string {
    "{\"username\":\"" + Escape(username) + "\"}"
  }

  /** A JSON reader recovers the user name, followed by the closing brace. */
  lemma ProfileNamesUser(username: string)
    ensures ProfileBody(username)[..13] == "{\"username\":\""
    ensures Decode(ProfileBody(username)[13..]) == Some(Decoded(username, "}"))
  {
    hide Escape, Decode;
    EscapeRoundTrip(username, "}");
    assert ProfileBody(username)[13..] == Escape(username) + "\"" + "}";
  }

  // ---- reading a request body ----

  /** src/Connection.cpp:77. */
  function GetJsonValue(json: string, key: string): string {
    var search := "\"" + key + "\":\"";
    match Find(json, search, 0)
    case None => ""
    case Some(pos) =>
      var start := pos + |search|;
      match Find(json, "\"", start)
      case None => ""
      case Some(end) => json[start..end]
  }

  /** A field that is missing, or whose value does not end, reads as empty. */
  lemma MissingIsEmpty(json: string, key: string, before: string, value: string)
    ensures !Contains(json, "\"" + key + "\":\"") ==> GetJsonValue(json, key) == ""
    ensures var search := "\"" + key + "\":\"";
            json == before + search + value && '"' !in value && Find(json, search, 0) == Some(|before|) ==>
            GetJsonValue(json, key) == ""
  {
    hide Find;
    var search := "\"" + key + "\":\"";
    if json == before + search + value && '"' !in value {
      FindShifts(json, |before| + |search|, "\"");
      assert json[|before| + |search|..] == value;
      ContainsNot(value, "\"");
    }
  }

  /** The text up to the first quote, or all of it. */
  function UpToQuote(s: string): string {
    if s == "" || s[0] == '"' then "" else [s[0]] + UpToQuote(s[1..])
  }

  lemma {:induction false} QuoteFound(s: string, rest: string)
    ensures var e := UpToQuote(s); Find(s + "\"" + rest, "\"", 0) == Some(|e|) && (s + "\"" + rest)[..|e|] == e
    ensures UpToQuote(s) == s <==> '"' !in s
  {
    var t := s + "\"" + rest;
    if s == "" {
      assert t[0..1] == "\"";
    } else if s[0] == '"' {
      assert t[0..1] == "\"";
      assert s[0] in s;
    } else {
      QuoteFound(s[1..], rest);
      assert t[1..] == s[1..] + "\"" + rest;
      FindShifts(t, 1, "\"");
      assert t[0..1][0] == s[0];
      assert s == [s[0]] + s[1..];
    }
  }

  /** A value is read up to its first quote, escaped or not. */
  lemma ValueRead(before: string, key: string, value: string, after: string)
    requires var search := "\"" + key + "\":\"";
             Find(before + search + value + "\"" + after, search, 0) == Some(|before|)
    ensures GetJsonValue(before + ("\"" + key + "\":\"") + value + "\"" + after, key) == UpToQuote(value)
  {
    hide Find, UpToQuote;
    var search := "\"" + key + "\":\"";
    var json := before + search + value + "\"" + after;
    var start := |before| + |search|;
    assert json[start..] == value + "\"" + after;
    FindShifts(json, start, "\"");
    QuoteFound(value, after);
    var e := UpToQuote(value);
    assert json[start..start + |e|] == json[start..][..|e|];
  }

  /** A request body with the two fields the page's client sends (static/index.html:279-284). */
  function CredentialsBody(user: string, pass: string): string {
    "{" + "\"username\":\"" + user + "\"" + (",\"password\":\"" + pass + "\"}")
  }

  lemma UsernameRead(user: string, pass: string)
    ensures GetJsonValue(CredentialsBody(user, pass), "username") == UpToQuote(user)
  {
    hide GetJsonValue, UpToQuote, Find;
    var search := "\"username\":\"";
    assert "\"" + "username" + "\":\"" == search;
    var json := CredentialsBody(user, pass);
    assert json[1..1 + |search|] == search;
    Mismatch(json, search, 0, 0);
    FindIs(json, search, 0, 1);
    ValueRead("{", "username", user, ",\"password\":\"" + pass + "\"}");
  }

  /** What precedes the password field. */
  function BeforePassword(user: string): string { "{\"username\":\"" + user + "\"," }

  lemma QuotesBeforePassword(user: string, j: nat)
    requires '"' !in user && j < |BeforePassword(user)| && BeforePassword(user)[j] == '"'
    ensures j == 1 || j == 10 || j == 12 || j == 13 + |user|
  {
    var s := BeforePassword(user);
    assert forall i :: 13 <= i < 13 + |user| ==> s[i] == user[i - 13];
  }

  /** With a quote-free user name, whatever it spells, the key of the password field is not
      found before that field. */
  lemma NoEarlyPassword(user: string, tail: string, j: nat)
    requires '"' !in user && j < |BeforePassword(user)| && |tail| >= 12
    ensures !At(BeforePassword(user) + tail, "\"password\":\"", j)
  {
    var search := "\"password\":\"";
    var before := BeforePassword(user);
    var json := before + tail;
    var n := |user|;
    if before[j] != '"' {
      Mismatch(json, search, j, 0);
    } else {
      QuotesBeforePassword(user, j);
      if j != 12 {
        Mismatch(json, search, j, 1);
      } else if n < 8 {
        assert json[13 + n] == '"';
        Mismatch(json, search, 12, 1 + n);
      } else if n == 8 {
        Mismatch(json, search, 12, 10);
      } else {
        assert json[21] == user[8];
        Mismatch(json, search, 12, 9);
      }
    }
  }

  lemma PasswordRead(user: string, pass: string)
    requires '"' !in user
    ensures GetJsonValue(CredentialsBody(user, pass), "password") == UpToQuote(pass)
  {
    hide GetJsonValue, UpToQuote, Find;
    var search := "\"password\":\"";
    var before := BeforePassword(user);
    var tail := search + pass + "\"" + "}";
    var json := CredentialsBody(user, pass);
    assert json == before + tail;
    assert |tail| >= 12;
    assert json[|before|..|before| + 12] == search;
    forall j | 0 <= j < |before| ensures !At(json, search, j) {
      NoEarlyPassword(user, tail, j);
    }
    FindIs(json, search, 0, |before|);
    assert "\"" + "password" + "\":\"" == search;
    assert json == before + search + pass + "\"" + "}";
    ValueRead(before, "password", pass, "}");
  }

  // ---- the client's own escaping ----

  /** One character as `JSON.stringify` writes it (static/index.html:267): like `jsonEscape`,
      but backspace and form feed have short escapes. */
  function StringifyChar(c: char): (r: string)
    ensures 1 <= |r|
  {
    if c == 8 as char then "\\b" else if c == 12 as char then "\\f" else EscapeChar(c)
  }

  function Stringify(s: string): (r: string)
    ensures |r| >= |s|
  {
    if s == "" then "" else StringifyChar(s[0]) + Stringify(s[1..])
  }

  lemma DecodeClientChar(c: char, rest: string)
    ensures Decode(StringifyChar(c) + rest) == Prefix([c], Decode(rest))
  {
    if c == 8 as char || c == 12 as char {
      assert (StringifyChar(c) + rest)[2..] == rest;
    } else {
      DecodeChar(c, rest);
    }
  }

  /** What the client writes is sound JSON for what the user typed. */
  lemma {:induction false} StringifyRoundTrip(s: string, after: string)
    ensures Decode(Stringify(s) + "\"" + after) == Some(Decoded(s, after))
  {
    if s == "" {
      assert Stringify(s) + "\"" + after == "\"" + after;
    } else {
      var tail := Stringify(s[1..]) + "\"" + after;
      assert Stringify(s) + "\"" + after == StringifyChar(s[0]) + tail;
      DecodeClientChar(s[0], tail);
      StringifyRoundTrip(s[1..], after);
      assert s == [s[0]] + s[1..];
    }
  }

  /** Nothing in the text needs an escape. */
  predicate Plain(s: string) {
    forall i :: 0 <= i < |s| ==> s[i] != '"' && s[i] != '\\' && s[i] >= 32 as char
  }

  lemma StringifyLength(c: char)
    ensures |StringifyChar(c)| == 1 <==> Plain([c])
    ensures |StringifyChar(c)| == 1 ==> StringifyChar(c) == [c]
    ensures '"' in StringifyChar(c) ==> c == '"'
  {
    assert Plain([c]) ==> [c][0] != '"' && [c][0] != '\\' && [c][0] >= 32 as char;
  }

  /** The escaped text is the text itself exactly when nothing needs an escape, and a quote
      in it stems from a quote. */
  lemma {:induction false} StringifyIsIdentity(s: string)
    ensures Stringify(s) == s <==> Plain(s)
    ensures |Stringify(s)| == |s| ==> Plain(s)
    ensures '"' in Stringify(s) ==> '"' in s
  {
    if s != "" {
      hide StringifyChar;
      var t := s[1..];
      StringifyLength(s[0]);
      StringifyIsIdentity(t);
      assert s == [s[0]] + t;
      assert Plain(s) ==> Plain(t) && Plain([s[0]]);
    }
  }

  lemma {:induction false} UpToQuoteHasNone(s: string)
    ensures '"' !in UpToQuote(s)
  {
    if s != "" && s[0] != '"' {
      UpToQuoteHasNone(s[1..]);
    }
  }

  lemma ReadBackIsPlain(s: string)
    ensures UpToQuote(Stringify(s)) == s <==> Plain(s)
  {
    hide UpToQuote, Stringify;
    UpToQuoteHasNone(Stringify(s));
    StringifyIsIdentity(s);
    QuoteFound(Stringify(s), "");
  }

  /** The server reads back the credentials the page's client sends if and only if neither
      holds a quote, a backslash or a control character: it does not decode escapes. */
  lemma CredentialsReadBack(user: string, pass: string)
    ensures var body := CredentialsBody(Stringify(user), Stringify(pass));
            GetJsonValue(body, "username") == user && GetJsonValue(body, "password") == pass
            <==> Plain(user) && Plain(pass)
  {
    hide GetJsonValue, UpToQuote, CredentialsBody, Stringify, Plain;
    UsernameRead(Stringify(user), Stringify(pass));
    ReadBackIsPlain(user);
    ReadBackIsPlain(pass);
    if Plain(user) {
      StringifyIsIdentity(user);
      UpToQuoteHasNone(Stringify(user));
      PasswordRead(Stringify(user), Stringify(pass));
    }
  }
}
