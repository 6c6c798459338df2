/** Session tokens on their way through a request: the issued alphabet and
    `parseBearerToken` (section 2.1 of RFC 6750). */
module Bearer {
  import opened Wrappers
  import opened Strings
  import opened Headers
  import opened Messages

  const TOKEN_LEN: nat := 32

  /** A token as `generateToken` issues it (src/Connection.cpp:462). */
  predicate Issued(token: string) {
    && |token| == TOKEN_LEN
    && forall i :: 0 <= i < |token| ==> 'a' <= token[i] <= 'z' || '0' <= token[i] <= '9'
  }

  const CHARSET: string := "abcdefghijklmnopqrstuvwxyz0123456789"

  /** Thirty-two characters out of thirty-six different ones. */
  lemma CharsetIsFair(i: nat, j: nat)
    requires i < j < |CHARSET|
    ensures |CHARSET| == 36 && TOKEN_LEN == 32 && CHARSET[i] != CHARSET[j]
  {
    assert forall k :: 0 <= k < 36 ==>
        CHARSET[k] == if k < 26 then ('a' as int + k) as char else ('0' as int + k - 26) as char;
  }

  /** src/Connection.cpp:462, on the numbers drawn from the generator. */
  method GenerateToken(draws: seq<nat>) returns (token: string)
    requires |draws| == TOKEN_LEN && forall i :: 0 <= i < |draws| ==> draws[i] < |CHARSET|
    ensures Issued(token)
    ensures forall i :: 0 <= i < TOKEN_LEN ==> token[i] == CHARSET[draws[i]]
  {
    assert forall i :: 0 <= i < |CHARSET| ==> 'a' <= CHARSET[i] <= 'z' || '0' <= CHARSET[i] <= '9';
    token := "";
    for i := 0 to TOKEN_LEN
      invariant |token| == i && forall k :: 0 <= k < i ==> token[k] == CHARSET[draws[k]]
    {
      token := token + [CHARSET[draws[i]]];
    }
  }

  /** A token that survives trimming and the length cap. */
  predicate Carried(token: string) {
    0 < |token| <= 2 * TOKEN_LEN && !Blank(token[|token| - 1])
  }

  /** The header section of a request: everything before the terminator, if there is one. */
  function HeaderSection(request: string): string {
    match Find(request, END, 0)
    case None => request
    case Some(headerEnd) => request[..headerEnd]
  }

  /** src/Connection.cpp:124-147, on the raw Authorization value. */
  function TokenOf(value: string): string {
    var v := LTrim(value);
    if |v| < 7 || Lower(v[..7]) != "bearer " then ""
    else
      var token := RTrim(v[7..]);
      if |token| > 2 * TOKEN_LEN then "" else token
  }

  /** src/Connection.cpp:118. */
  function ParseBearerToken(request: string): string {
    TokenOf(FindHeader(HeaderSection(request), "authorization"))
  }

  /** `value` is an optional pad, the scheme in any letter case, the token and a pad. */
  predicate Credentials(value: string, pad: string, scheme: string, token: string, after: string) {
    && value == pad + scheme + token + after
    && AllBlank(pad) && AllBlank(after) && |scheme| == 7 && Lower(scheme) == "bearer "
  }

  lemma TokenReadsBack(value: string, pad: string, scheme: string, token: string, after: string)
    requires Credentials(value, pad, scheme, token, after) && Carried(token)
    ensures TokenOf(value) == token
  {
    hide LTrim, RTrim;
    var core := scheme + token + after;
    assert value == pad + core;
    assert !Blank(scheme[0]) by {
      assert Lower(scheme)[0] == 'b';
    }
    LTrimOf(pad, core);
    assert core[..7] == scheme && core[7..] == token + after;
    RTrimOf(token, after);
  }

  lemma ThreeParts(value: string, n: nat, m: nat)
    requires n + 7 + m <= |value|
    ensures value == value[..n] + value[n..][..7] + value[n..][7..][..m] + value[n..][7..][m..]
  {
    var v := value[n..];
    assert value == value[..n] + v;
    assert v == v[..7] + v[7..] && v[7..] == v[7..][..m] + v[7..][m..];
  }

  /** Conversely a token comes from nowhere but such a value. */
  lemma TokenComesFromCredentials(value: string) returns (pad: string, scheme: string, after: string)
    requires TokenOf(value) != ""
    ensures Credentials(value, pad, scheme, TokenOf(value), after) && Carried(TokenOf(value))
  {
    hide LTrim, RTrim;
    var v := LTrim(value);
    var token := RTrim(v[7..]);
    pad, scheme, after := value[..|value| - |v|], v[..7], v[7..][|token|..];
    ThreeParts(value, |value| - |v|, |token|);
  }

  /** The header block of a request whose first Authorization line is `line`. */
  predicate FirstAuthorization(lines: seq<string>, k: nat) {
    && k < |lines| && LinesOk(lines)
    && forall i :: 0 <= i < k ==> !Named(lines[i], "authorization")
  }

  /** Token round trip: whatever the letter case of the field name and of the scheme,
      whatever blanks stand before the colon and around the value, and whatever follows, a
      request whose first Authorization line carries a token parses back to that token. */
  lemma BearerRoundTrip(lines: seq<string>, k: nat, name: string, gap: string, value: string,
                        pad: string, scheme: string, token: string, after: string, body: string)
    requires FirstAuthorization(lines, k) && lines[k] == FieldLine(name + gap, value)
    requires Lower(name) == "authorization" && AllBlank(gap)
    requires Credentials(value, pad, scheme, token, after) && (Issued(token) || Carried(token))
    ensures ParseBearerToken(Print(lines, body)) == token
  {
    hide Find, Field, Named;
    TerminatorOf(lines, body);
    assert Print(lines, body)[..|Join(lines)|] == Join(lines);
    LinesOfJoin(lines);
    AuthorizationField(name, gap, value);
    FirstLineWins(lines, "authorization", k);
    assert Carried(token);
    TokenReadsBack(value, pad, scheme, token, after);
  }

  lemma {:induction false} NoTerminator(lines: seq<string>)
    requires LinesOk(lines)
    ensures Find(Join(lines), END, 0).None?
  {
    hide Find;
    var s := Join(lines);
    if Find(s, END, 0).Some? {
      var j := Find(s, END, 0).value;
      AtExtends(s, END + "", END, j);
      assert s + (END + "") == Print(lines, "");
      NoEarlyTerminator(lines, "", j);
    }
  }

  /** The same for a header block that nothing follows, not even its terminator. */
  lemma BearerWithoutEnd(lines: seq<string>, k: nat, name: string, gap: string, value: string,
                         pad: string, scheme: string, token: string, after: string)
    requires FirstAuthorization(lines, k) && lines[k] == FieldLine(name + gap, value)
    requires Lower(name) == "authorization" && AllBlank(gap)
    requires Credentials(value, pad, scheme, token, after) && Carried(token)
    ensures ParseBearerToken(Join(lines)) == token
  {
    hide Find, Field, Named, Join;
    NoTerminator(lines);
    LinesOfJoin(lines);
    AuthorizationField(name, gap, value);
    FirstLineWins(lines, "authorization", k);
    TokenReadsBack(value, pad, scheme, token, after);
  }

  lemma NoColon(name: string)
    requires forall i :: 0 <= i < |name| ==> Lower(name)[i] != ':'
    ensures ':' !in name
  {
    assert forall i :: 0 <= i < |name| ==> Lower(name)[i] == LowerChar(name[i]);
  }

  lemma AuthorizationField(name: string, gap: string, value: string)
    requires Lower(name) == "authorization" && AllBlank(gap)
    ensures Field(FieldLine(name + gap, value)) == Some(("authorization", value))
    ensures Named(FieldLine(name + gap, value), "authorization")
  {
    hide RTrim, Find, Field, Lower;
    NoColon(name);
    FieldOf(name + gap, value);
    LowerKeepsBlanks(name, gap);
    RTrimOf("authorization", gap);
  }

  lemma LowerKeepsBlanks(s: string, gap: string)
    requires AllBlank(gap)
    ensures Lower(s + gap) == Lower(s) + gap
  {
  }
}
