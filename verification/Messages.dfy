/** Messages as text: the responses the server prints, requests as clients print them, and
    the framer's own functions as their inverse. */
module Messages {
  import opened Wrappers
  import opened Strings
  import opened Numbers
  import opened Headers
  import opened Framer

  /** A non-empty line free of CR and LF. */
  predicate Clean(s: string) { forall i :: 0 <= i < |s| ==> s[i] != '\r' && s[i] != '\n' }

  predicate LineOk(s: string) { s != "" && Clean(s) }

  predicate LinesOk(lines: seq<string>) {
    lines != [] && forall i :: 0 <= i < |lines| ==> LineOk(lines[i])
  }

  function Join(lines: seq<string>): string
    requires lines != []
  {
    if |lines| == 1 then lines[0] else lines[0] + CRLF + Join(lines[1..])
  }

  /** A header block followed by the terminator and a body. */
  function Print(lines: seq<string>, body: string): string
    requires lines != []
  {
    Join(lines) + END + body
  }

  // ---- the block can be read back ----

  /** No CRLF begins inside a clean line. */
  lemma LineEnd(line: string, rest: string)
    requires Clean(line)
    ensures Find(line + CRLF + rest, CRLF, 0) == Some(|line|)
  {
    var s := line + CRLF + rest;
    assert s[|line|..|line| + 2] == CRLF;
    forall j | 0 <= j < |line| ensures !At(s, CRLF, j) {
      assert s[j] == line[j];
      assert |s[j..j + 2]| == 2 && s[j..j + 2][0] == s[j];
    }
    FindIs(s, CRLF, 0, |line|);
  }

  lemma NoLineEnd(line: string)
    requires Clean(line)
    ensures Find(line, CRLF, 0).None?
  {
    if Find(line, CRLF, 0).Some? {
      AtFirst(line, CRLF, Find(line, CRLF, 0).value);
    }
  }

  lemma {:induction false} LinesOfJoin(lines: seq<string>)
    requires LinesOk(lines)
    ensures Lines(Join(lines)) == lines
  {
    if |lines| == 1 {
      NoLineEnd(lines[0]);
    } else {
      var rest := Join(lines[1..]);
      LineEnd(lines[0], rest);
      var s := Join(lines);
      assert s[..|lines[0]|] == lines[0] && s[|lines[0]| + 2..] == rest;
      LinesOfJoin(lines[1..]);
    }
  }

  /** The terminator is not found before the end of the block. */
  lemma {:induction false} NoEarlyTerminator(lines: seq<string>, body: string, j: nat)
    requires LinesOk(lines) && j < |Join(lines)|
    ensures !At(Print(lines, body), END, j)
  {
    var s, l := Print(lines, body), lines[0];
    if At(s, END, j) {
      assert s[j] == s[j..j + 4][0] && s[j + 2] == s[j..j + 4][2];
    }
    if j < |l| {
      assert s[j] == l[j];
    } else {
      var rest := Join(lines[1..]);
      assert s == (l + CRLF) + Print(lines[1..], body);
      assert s[|l| + 1] == '\n';
      assert rest != "" && rest[0] == lines[1][0];
      assert s[|l| + 2] == lines[1][0];
      if j >= |l| + 2 {
        NoEarlyTerminator(lines[1..], body, j - |l| - 2);
        AtShifts(s, |l| + 2, END, j - |l| - 2);
        assert s[|l| + 2..] == Print(lines[1..], body);
      }
    }
  }

  lemma TerminatorOf(lines: seq<string>, body: string)
    requires LinesOk(lines)
    ensures Find(Print(lines, body), END, 0) == Some(|Join(lines)|)
  {
    var s := Print(lines, body);
    var n := |Join(lines)|;
    assert s[n..n + 4] == END;
    forall j | 0 <= j < n ensures !At(s, END, j) {
      NoEarlyTerminator(lines, body, j);
    }
    FindIs(s, END, 0, n);
  }

  /** A printed message is cut off the front of any stream, whole and alone. */
  lemma CutOfPrint(lim: Limits, lines: seq<string>, body: string, rest: string)
    requires LinesOk(lines) && ContentLength(Join(lines)) == |body|
    requires lim.maxBody > 0 ==> |body| <= lim.maxBody
    ensures var text := Print(lines, body);
            Cut(lim, text + rest) == Some(Dispatch(text, KeepAlive(text, Join(lines))))
  {
    var text := Print(lines, body);
    TerminatorOf(lines, body);
    assert text[..|Join(lines)|] == Join(lines) && text[..|text|] == text;
    CutIsLocal(lim, text, rest);
  }

  // ---- fields ----

  function FieldLine(name: string, value: string): string { name + ":" + value }

  lemma FieldOf(name: string, value: string)
    requires ':' !in name
    ensures Field(FieldLine(name, value)) == Some((RTrim(Lower(name)), value))
  {
    var line := FieldLine(name, value);
    assert line[|name|..|name| + 1] == ":";
    forall j | 0 <= j < |name| ensures !At(line, ":", j) {
      assert line[j] == name[j] && line[j..j + 1][0] == line[j];
    }
    FindIs(line, ":", 0, |name|);
    assert line[..|name|] == name && line[|name| + 1..] == value;
  }

  lemma NoField(line: string)
    requires ':' !in line
    ensures Field(line).None?
  {
    if Find(line, ":", 0).Some? {
      AtFirst(line, ":", Find(line, ":", 0).value);
    }
  }

  // ---- responses ----

  function StatusText(status: int): string {
    match status
    case 200 => "OK"
    case 400 => "Bad Request"
    case 401 => "Unauthorized"
    case 409 => "Conflict"
    case 413 => "Payload Too Large"
    case 429 => "Too Many Requests"
    case 500 => "Internal Server Error"
    case 503 => "Service Unavailable"
    case _ => "Not Found"
  }

  function ConnectionValue(keepAlive: bool): string { if keepAlive then "keep-alive" else "close" }

  /** src/Connection.cpp:239. */
  function BuildHttpResponse(status: int, contentType: string, body: string, keepAlive: bool): string {
    "HTTP/1.1 " + Signed(status) + " " + StatusText(status) + "\r\n" +
    "Content-Type: " + contentType + "\r\n" +
    "Content-Length: " + Decimal(|body|) + "\r\n" +
    "Connection: " + ConnectionValue(keepAlive) + "\r\n\r\n" + body
  }

  function ResponseLines(status: int, contentType: string, length: nat, keepAlive: bool): seq<string> {
    ["HTTP/1.1 " + Signed(status) + " " + StatusText(status),
     FieldLine("Content-Type", " " + contentType),
     FieldLine("Content-Length", " " + Decimal(length)),
     FieldLine("Connection", " " + ConnectionValue(keepAlive))]
  }

  lemma Glue(p: string, x: string, y: string)
    ensures p + (x + y) == p + x + y
  {
  }

  lemma PrintOfFour(a: string, b: string, c: string, d: string, body: string)
    ensures Print([a, b, c, d], body) == a + CRLF + b + CRLF + c + CRLF + d + END + body
  {
    assert [a, b, c, d][1..] == [b, c, d] && [b, c, d][1..] == [c, d] && [c, d][1..] == [d];
    assert Join([c, d]) == c + CRLF + d;
    assert Join([b, c, d]) == b + CRLF + Join([c, d]);
    assert Join([a, b, c, d]) == a + CRLF + b + CRLF + c + CRLF + d;
  }

  lemma ResponseIsPrint(status: int, contentType: string, body: string, keepAlive: bool)
    ensures BuildHttpResponse(status, contentType, body, keepAlive)
         == Print(ResponseLines(status, contentType, |body|, keepAlive), body)
  {
    hide StatusText, Signed, Decimal, ConnectionValue;
    var first := "HTTP/1.1 " + Signed(status) + " " + StatusText(status) + "\r\n";
    var len, conn := Decimal(|body|), ConnectionValue(keepAlive);
    var l := ResponseLines(status, contentType, |body|, keepAlive);
    assert l == [l[0], l[1], l[2], l[3]];
    PrintOfFour(l[0], l[1], l[2], l[3], body);
    assert l[1] == "Content-Type: " + contentType;
    assert l[2] == "Content-Length: " + len;
    assert l[3] == "Connection: " + conn;
    Glue(first, "Content-Type: ", contentType);
    Glue(first + "Content-Type: " + contentType + CRLF, "Content-Length: ", len);
    Glue(first + "Content-Type: " + contentType + CRLF + "Content-Length: " + len + CRLF, "Connection: ", conn);
  }

  predicate StartsWith(s: string, line: string) { |line| <= |s| && s[..|line|] == line }

  function FirstLine(number: string, reason: string): string { "HTTP/1.1 " + number + " " + reason + "\r\n" }

  lemma StatusLine(status: int, number: string, reason: string, contentType: string, body: string, keepAlive: bool)
    requires Signed(status) == number && StatusText(status) == reason
    ensures StartsWith(BuildHttpResponse(status, contentType, body, keepAlive), FirstLine(number, reason))
  {
    hide Signed, StatusText, Decimal, ConnectionValue;
  }

  /** The status line of every status that the server sends. */
  lemma StatusLines(contentType: string, body: string, keepAlive: bool)
    ensures StartsWith(BuildHttpResponse(200, contentType, body, keepAlive), FirstLine("200", "OK"))
    ensures StartsWith(BuildHttpResponse(400, contentType, body, keepAlive), FirstLine("400", "Bad Request"))
    ensures StartsWith(BuildHttpResponse(401, contentType, body, keepAlive), FirstLine("401", "Unauthorized"))
    ensures StartsWith(BuildHttpResponse(404, contentType, body, keepAlive), FirstLine("404", "Not Found"))
    ensures StartsWith(BuildHttpResponse(409, contentType, body, keepAlive), FirstLine("409", "Conflict"))
  {
    hide BuildHttpResponse, Signed;
    ThreeDigits(2, 0, 0);
    ThreeDigits(4, 0, 0);
    ThreeDigits(4, 0, 1);
    ThreeDigits(4, 0, 4);
    ThreeDigits(4, 0, 9);
    StatusLine(200, "200", "OK", contentType, body, keepAlive);
    StatusLine(400, "400", "Bad Request", contentType, body, keepAlive);
    StatusLine(401, "401", "Unauthorized", contentType, body, keepAlive);
    StatusLine(404, "404", "Not Found", contentType, body, keepAlive);
    StatusLine(409, "409", "Conflict", contentType, body, keepAlive);
  }

  lemma MoreStatusLines(contentType: string, body: string, keepAlive: bool)
    ensures StartsWith(BuildHttpResponse(413, contentType, body, keepAlive), FirstLine("413", "Payload Too Large"))
    ensures StartsWith(BuildHttpResponse(429, contentType, body, keepAlive), FirstLine("429", "Too Many Requests"))
    ensures StartsWith(BuildHttpResponse(500, contentType, body, keepAlive), FirstLine("500", "Internal Server Error"))
    ensures StartsWith(BuildHttpResponse(503, contentType, body, keepAlive), FirstLine("503", "Service Unavailable"))
  {
    hide BuildHttpResponse, Signed;
    ThreeDigits(4, 1, 3);
    ThreeDigits(4, 2, 9);
    ThreeDigits(5, 0, 0);
    ThreeDigits(5, 0, 3);
    StatusLine(413, "413", "Payload Too Large", contentType, body, keepAlive);
    StatusLine(429, "429", "Too Many Requests", contentType, body, keepAlive);
    StatusLine(500, "500", "Internal Server Error", contentType, body, keepAlive);
    StatusLine(503, "503", "Service Unavailable", contentType, body, keepAlive);
  }

  /** Neither a line break nor a colon. */
  predicate Plain(s: string) { Clean(s) && ':' !in s }

  lemma StatusTextIsPlain(status: int)
    ensures Plain(StatusText(status))
  {
    hide Plain, StatusText;
    if status in {200, 400, 401, 409} {
      SomeStatusTexts(status);
    } else if status in {413, 429} {
      MoreStatusTexts(status);
    } else if status in {500, 503} {
      FaultStatusTexts(status);
    } else {
      OtherStatusTexts(status);
    }
  }

  lemma SomeStatusTexts(status: int)
    requires status in {200, 400, 401, 409}
    ensures Plain(StatusText(status))
  {
  }

  lemma MoreStatusTexts(status: int)
    requires status in {413, 429}
    ensures Plain(StatusText(status))
  {
  }

  lemma FaultStatusTexts(status: int)
    requires status in {500, 503}
    ensures Plain(StatusText(status))
  {
  }

  lemma OtherStatusTexts(status: int)
    requires status !in {200, 400, 401, 409, 413, 429, 500, 503}
    ensures Plain(StatusText(status))
  {
  }

  lemma SignedIsPlain(n: int)
    ensures Plain(Signed(n))
  {
    var d := Decimal(if n < 0 then -n else n);
    assert Plain(d);
  }

  lemma ResponseLinesOk(status: int, contentType: string, length: nat, keepAlive: bool)
    requires Clean(contentType)
    ensures LinesOk(ResponseLines(status, contentType, length, keepAlive))
    ensures ':' !in ResponseLines(status, contentType, length, keepAlive)[0]
  {
    var l := ResponseLines(status, contentType, length, keepAlive);
    SignedIsPlain(status);
    StatusTextIsPlain(status);
    PlainConcat("HTTP/1.1 ", Signed(status), " ", StatusText(status));
    FieldLineOk("Content-Type", " ", contentType);
    SignedIsPlain(length);
    FieldLineOk("Content-Length", " ", Decimal(length));
    FieldLineOk("Connection", " ", ConnectionValue(keepAlive));
  }

  lemma PlainConcat(a: string, b: string, c: string, d: string)
    requires a != "" && Plain(a) && Plain(b) && Plain(c) && Plain(d)
    ensures LineOk(a + b + c + d) && ':' !in a + b + c + d
  {
  }

  lemma FieldLineOk(name: string, pad: string, value: string)
    requires Clean(name) && Clean(pad) && Clean(value)
    ensures LineOk(FieldLine(name, pad + value))
  {
  }

  lemma ResponseFields(status: int, contentType: string, length: nat, keepAlive: bool)
    requires Clean(contentType)
    ensures var l := ResponseLines(status, contentType, length, keepAlive);
            && ValueIn(l, "content-length") == " " + Decimal(length)
            && ValueIn(l, "connection") == " " + ConnectionValue(keepAlive)
  {
    hide Field, Find, Lower;
    var l := ResponseLines(status, contentType, length, keepAlive);
    ResponseLinesOk(status, contentType, length, keepAlive);
    NoField(l[0]);
    ResponseFieldNames();
    NamedFields(contentType, length, keepAlive);
    var v1, v2, v3 := " " + contentType, " " + Decimal(length), " " + ConnectionValue(keepAlive);
    assert |"content-type"| == 12 && |"content-length"| == 14 && |"connection"| == 10;
    FourFields(l, "content-type", "content-length", "connection", v1, v2, v3);
  }

  lemma NamedFields(contentType: string, length: nat, keepAlive: bool)
    ensures Field(FieldLine("Content-Type", " " + contentType)) == Some(("content-type", " " + contentType))
    ensures Field(FieldLine("Content-Length", " " + Decimal(length))) == Some(("content-length", " " + Decimal(length)))
    ensures var value := " " + ConnectionValue(keepAlive);
            Field(FieldLine("Connection", value)) == Some(("connection", value))
  {
    ResponseFieldNames();
    NamedField("Content-Type", "content-type", " " + contentType);
    NamedField("Content-Length", "content-length", " " + Decimal(length));
    NamedField("Connection", "connection", " " + ConnectionValue(keepAlive));
  }

  lemma FourFields(l: seq<string>, n1: string, n2: string, n3: string, v1: string, v2: string, v3: string)
    requires |l| == 4 && Field(l[0]).None? && Field(l[1]) == Some((n1, v1))
    requires Field(l[2]) == Some((n2, v2)) && Field(l[3]) == Some((n3, v3))
    requires n1 != n2 && n1 != n3 && n2 != n3
    ensures ValueIn(l, n2) == v2 && ValueIn(l, n3) == v3
  {
    hide Field;
    assert !Named(l[0], n2) && !Named(l[1], n2) && Named(l[2], n2);
    FirstLineWins(l, n2, 2);
    assert !Named(l[0], n3) && !Named(l[1], n3) && !Named(l[2], n3) && Named(l[3], n3);
    FirstLineWins(l, n3, 3);
  }

  lemma ResponseFieldNames()
    ensures Lower("Content-Type") == "content-type"
    ensures Lower("Content-Length") == "content-length"
    ensures Lower("Connection") == "connection"
  {
  }

  lemma NamedField(name: string, lower: string, value: string)
    requires ':' !in name && Lower(name) == lower && lower != "" && !Blank(lower[|lower| - 1])
    ensures Field(FieldLine(name, value)) == Some((lower, value))
  {
    FieldOf(name, value);
  }

  /** The framer's reading of a padded length field. */
  lemma LengthReadsBack(block: string, pad: string, n: nat, after: string)
    requires FindHeader(block, "content-length") == pad + Decimal(n) + after
    requires AllBlank(pad) && AllBlank(after) && n <= LONG_MAX
    ensures ContentLength(block) == n
  {
    DecimalRoundTrip(n);
    StrtolOfDigits(pad, Decimal(n), after);
  }

  // ---- the body limit ----

  /** Whether the size guard of src/Connection.cpp:784 refuses a body of that length. */
  predicate Refuses(lim: Limits, length: nat) { lim.maxBody > 0 && length > lim.maxBody }

  /** On a block that announces these digits, the guard decides as the number itself would,
      and a length that it lets pass is the number. */
  predicate LimitAgrees(lim: Limits, digits: string)
    requires AllDigits(digits)
  {
    var length := ContentLength(FieldLine("Content-Length", digits));
    && (Refuses(lim, length) <==> Refuses(lim, Value(digits)))
    && (!Refuses(lim, length) ==> length == Value(digits))
  }

  lemma AnnouncedLength(digits: string)
    requires AllDigits(digits) && digits != ""
    ensures FindHeader(FieldLine("Content-Length", digits), "content-length") == digits
  {
    hide Find, Field, Lines, Lower;
    var line := FieldLine("Content-Length", digits);
    FieldLineOk("Content-Length", "", digits);
    assert "" + digits == digits;
    LinesOfJoin([line]);
    ResponseFieldNames();
    NamedField("Content-Length", "content-length", digits);
    FirstLineWins([line], "content-length", 0);
  }

  lemma AnnouncedSaturates(digits: string)
    requires AllDigits(digits) && digits != ""
    ensures ContentLength(FieldLine("Content-Length", digits)) ==
            if Value(digits) > LONG_MAX then LONG_MAX else Value(digits)
  {
    hide FindHeader;
    AnnouncedLength(digits);
    assert "" + digits + "" == digits;
    StrtolOfDigits("", digits, "");
  }

  /** The saturating Content-Length decides every announcement as the unbounded number would
      if and only if there is a body limit and `long` can exceed it. */
  lemma BodyLimitExactly(lim: Limits)
    ensures 0 < lim.maxBody < LONG_MAX <==>
            forall digits :: AllDigits(digits) && digits != "" ==> LimitAgrees(lim, digits)
  {
    hide ContentLength, FieldLine;
    if 0 < lim.maxBody < LONG_MAX {
      forall digits | AllDigits(digits) && digits != "" ensures LimitAgrees(lim, digits) {
        AnnouncedSaturates(digits);
      }
    } else {
      var n := if lim.maxBody == 0 then LONG_MAX + 1 else lim.maxBody + 1;
      DecimalRoundTrip(n);
      AnnouncedSaturates(Decimal(n));
      assert !LimitAgrees(lim, Decimal(n));
    }
  }

  /** The Connection value alone decides, once it names either option. */
  lemma KeepAliveReadsBack(request: string, block: string, keepAlive: bool)
    requires FindHeader(block, "connection") == " " + ConnectionValue(keepAlive)
    ensures KeepAlive(request, block) == keepAlive
  {
    var value := FindHeader(block, "connection");
    var option := ConnectionValue(keepAlive);
    assert Lower(value) == value;
    ContainsIf(" ", option, "");
    assert " " + option + "" == value;
    if keepAlive {
      assert 'c' !in value;
      ContainsNot(value, "close");
    }
  }

  datatype Response = Response(status: int, contentType: string, body: string, keepAlive: bool) {
    function Text(): string { BuildHttpResponse(status, contentType, body, keepAlive) }

    predicate Within(lim: Limits) {
      Clean(contentType) && |body| <= LONG_MAX && (lim.maxBody > 0 ==> |body| <= lim.maxBody)
    }
  }

  /** A response frames itself in front of anything: its text, its body, its flag. */
  lemma ResponseFramesItself(lim: Limits, r: Response, rest: string)
    requires r.Within(lim)
    ensures Cut(lim, r.Text() + rest) == Some(Dispatch(r.Text(), r.keepAlive))
    ensures ParseBody(r.Text()) == r.body
  {
    hide Cut, Find, Field;
    var l := ResponseLines(r.status, r.contentType, |r.body|, r.keepAlive);
    ResponseIsPrint(r.status, r.contentType, r.body, r.keepAlive);
    ResponseLinesOk(r.status, r.contentType, |r.body|, r.keepAlive);
    ResponseFields(r.status, r.contentType, |r.body|, r.keepAlive);
    LinesOfJoin(l);
    assert "" + Decimal(|r.body|) == Decimal(|r.body|) && " " + Decimal(|r.body|) == " " + Decimal(|r.body|) + "";
    LengthReadsBack(Join(l), " ", |r.body|, "");
    KeepAliveReadsBack(r.Text(), Join(l), r.keepAlive);
    CutOfPrint(lim, l, r.body, rest);
    TerminatorOf(l, r.body);
  }

  /** Cutting messages off a stream until none is left, as a client of the server would. */
  function CutAll(lim: Limits, buf: string): Outcome
    decreases |buf|
  {
    match Cut(lim, buf)
    case Some(Dispatch(text, keepAlive)) =>
      var o := CutAll(lim, buf[|text|..]);
      Outcome([Dispatch(text, keepAlive)] + o.decisions, o.rest)
    case _ => Outcome([], buf)
  }

  function Texts(rs: seq<Response>): seq<string> {
    if rs == [] then [] else [rs[0].Text()] + Texts(rs[1..])
  }

  function Framed(rs: seq<Response>): seq<Decision> {
    if rs == [] then [] else [Dispatch(rs[0].Text(), rs[0].keepAlive)] + Framed(rs[1..])
  }

  /** Any run of responses is recovered from its concatenation by the server's own framing. */
  lemma {:induction false} ResponsesFrameThemselves(lim: Limits, rs: seq<Response>)
    requires forall i :: 0 <= i < |rs| ==> rs[i].Within(lim)
    ensures CutAll(lim, Flatten(Texts(rs))) == Outcome(Framed(rs), "")
  {
    hide Cut, BuildHttpResponse;
    if rs != [] {
      var text, rest := rs[0].Text(), Flatten(Texts(rs[1..]));
      assert Texts(rs)[1..] == Texts(rs[1..]);
      ResponseFramesItself(lim, rs[0], rest);
      assert (text + rest)[|text|..] == rest;
      ResponsesFrameThemselves(lim, rs[1..]);
    }
  }

  // ---- pipelined requests ----

  /** A request as a client prints it: request line, fields, body. */
  datatype Request = Request(
    method': string, target: string, version: string, fields: seq<(string, string)>, body: string)
  {
    function StartLine(): string { method' + " " + target + " " + version }

    function Block(): (l: seq<string>)
      ensures |l| == 1 + |fields| && l[0] == StartLine()
      ensures forall i :: 0 <= i < |fields| ==> l[i + 1] == FieldLine(fields[i].0, fields[i].1)
    {
      [StartLine()] + seq(|fields|, i requires 0 <= i < |fields| => FieldLine(fields[i].0, fields[i].1))
    }

    function Text(): string { Print(Block(), body) }

    /** The request line and the fields are free of CR and LF; the method and the field names
        hold no colon, and the target starts with neither a blank nor a colon. */
    predicate WellFormed() {
      && method' != "" && Clean(method') && ':' !in method'
      && target != "" && !Blank(target[0]) && target[0] != ':' && Clean(target) && Clean(version)
      && forall i :: 0 <= i < |fields| ==> Clean(fields[i].0) && Clean(fields[i].1) && ':' !in fields[i].0
    }

    /** `i` is the first field of that name, or one past the last if there is none. */
    predicate First(name: string, i: nat) {
      && i <= |fields|
      && (forall k :: 0 <= k < i ==> RTrim(Lower(fields[k].0)) != name)
      && (i < |fields| ==> RTrim(Lower(fields[i].0)) == name)
    }

    /** The first Content-Length field, if any, is the length of the body between blanks;
        without one the body is empty. */
    predicate LengthAnnounced(i: nat, pad: string, after: string)
      requires First("content-length", i)
    {
      if i == |fields| then body == ""
      else AllBlank(pad) && AllBlank(after) && fields[i].1 == pad + Decimal(|body|) + after
    }

    /** The first Connection field, if any, does not ask to close, and unless the version is
        HTTP/1.1 there is one and it asks to keep the connection. */
    predicate StaysOpen(i: nat)
      requires First("connection", i)
    {
      && (i < |fields| ==> !Contains(Lower(fields[i].1), "close"))
      && (version == "HTTP/1.1" || (i < |fields| && Contains(Lower(fields[i].1), "keep-alive")))
    }

    ghost predicate Pipelined() {
      && WellFormed()
      && (exists i: nat, pad, after :: First("content-length", i) && LengthAnnounced(i, pad, after))
      && (exists i: nat :: First("connection", i) && StaysOpen(i))
    }

    predicate Within(lim: Limits) {
      |body| <= LONG_MAX && (lim.maxBody > 0 ==> |body| <= lim.maxBody)
    }

    /** The header block stays within the limit even when its last byte is still to come. */
    predicate HeaderWithin(lim: Limits) {
      lim.maxHeader > 0 ==> |Join(Block())| + 3 <= lim.maxHeader
    }
  }

  lemma BlockOk(r: Request)
    requires r.WellFormed()
    ensures LinesOk(r.Block())
  {
    assert LineOk(r.StartLine());
  }

  /** The request line never passes for a field: what precedes its first colon, if it has
      one, contains the space in front of the target. */
  lemma StartLineIsNoField(r: Request, name: string)
    requires r.WellFormed() && ' ' !in name
    ensures !Named(r.StartLine(), name)
  {
    var s := r.StartLine();
    var k := |r.method'|;
    assert s[k] == ' ' && s[k + 1] == r.target[0];
    assert forall j :: 0 <= j <= k + 1 ==> s[j] != ':';
    if Find(s, ":", 0).Some? {
      var c := Find(s, ":", 0).value;
      AtFirst(s, ":", c);
      var lower := Lower(s[..c]);
      assert lower[k] == ' ' && !Blank(lower[k + 1]);
      RTrimKeeps(lower, k + 1);
      assert RTrim(lower)[k] in RTrim(lower);
    }
  }

  lemma FieldLookup(r: Request, name: string, i: nat)
    requires r.WellFormed() && ' ' !in name && r.First(name, i)
    ensures FindHeader(Join(r.Block()), name) == if i < |r.fields| then r.fields[i].1 else ""
  {
    hide Find, Field, Lines, Named, Lower, Join;
    var l := r.Block();
    BlockOk(r);
    LinesOfJoin(l);
    StartLineIsNoField(r, name);
    forall k | 0 <= k < |r.fields| && k <= i
      ensures Named(l[k + 1], name) <==> k == i
      ensures k == i ==> Field(l[k + 1]) == Some((name, r.fields[k].1))
    {
      FieldNamed(r, name, k);
    }
    FirstLineWins(l, name, i + 1);
  }

  lemma FieldNamed(r: Request, name: string, k: nat)
    requires r.WellFormed() && k < |r.fields|
    ensures var f, line := r.fields[k], r.Block()[k + 1];
            && (Named(line, name) <==> RTrim(Lower(f.0)) == name)
            && Field(line) == Some((RTrim(Lower(f.0)), f.1))
  {
    hide Find, Field, Lower;
    FieldOf(r.fields[k].0, r.fields[k].1);
  }

  lemma AnnouncedIsRead(r: Request)
    requires r.WellFormed() && |r.body| <= LONG_MAX
    requires exists i: nat, pad, after :: r.First("content-length", i) && r.LengthAnnounced(i, pad, after)
    ensures ContentLength(Join(r.Block())) == |r.body|
  {
    var i: nat, pad, after :| r.First("content-length", i) && r.LengthAnnounced(i, pad, after);
    FieldLookup(r, "content-length", i);
    if i < |r.fields| {
      LengthReadsBack(Join(r.Block()), pad, |r.body|, after);
    }
  }

  lemma RequestKeepAlive(r: Request)
    requires r.Pipelined()
    ensures KeepAlive(r.Text(), Join(r.Block()))
  {
    hide Contains, Join, Request.Text;
    var i: nat :| r.First("connection", i) && r.StaysOpen(i);
    FieldLookup(r, "connection", i);
    NoWordInNothing();
    if r.version == "HTTP/1.1" {
      VersionInText(r);
    }
  }

  lemma NoWordInNothing()
    ensures Lower("") == "" && !Contains("", "close") && !Contains("", "keep-alive")
  {
  }

  lemma BlockText(r: Request)
    ensures var l := r.Block();
            r.Text() == r.StartLine() + if |l| == 1 then END + r.body else CRLF + Join(l[1..]) + END + r.body
  {
    hide Request.StartLine;
    if |r.Block()| > 1 {
      Associate(r.StartLine(), CRLF, Join(r.Block()[1..]), END, r.body);
    }
  }

  lemma Associate(a: string, b: string, c: string, d: string, e: string)
    ensures a + b + c + d + e == a + (b + c + d + e)
  {
  }

  lemma VersionInText(r: Request)
    requires r.version == "HTTP/1.1"
    ensures Contains(r.Text(), "HTTP/1.1")
  {
    var l := r.Block();
    var pre := r.method' + " " + r.target + " ";
    var post := if |l| == 1 then END + r.body else CRLF + Join(l[1..]) + END + r.body;
    hide Contains;
    BlockText(r);
    ContainsIf(pre, "HTTP/1.1", post);
  }

  /** Any well-formed request whose length is announced is cut off the front of a stream,
      whole and alone, and stays open exactly if its Connection field and its version, as the
      server reads them, say so: in particular HTTP/1.0 without the field closes. */
  lemma RequestIsCut(lim: Limits, r: Request, i: nat, rest: string)
    requires r.WellFormed() && r.Within(lim) && r.First("connection", i)
    requires exists j: nat, pad, after :: r.First("content-length", j) && r.LengthAnnounced(j, pad, after)
    ensures var value := if i < |r.fields| then Lower(r.fields[i].1) else "";
            var open' := !Contains(value, "close") && (Contains(value, "keep-alive") || Contains(r.Text(), "HTTP/1.1"));
            Cut(lim, r.Text() + rest) == Some(Dispatch(r.Text(), open'))
  {
    hide Cut, Find, Contains, Join, KeepAlive;
    BlockOk(r);
    AnnouncedIsRead(r);
    FieldLookup(r, "connection", i);
    NoWordInNothing();
    ConnectionDecides(r.Text(), Join(r.Block()));
    CutOfPrint(lim, r.Block(), r.body, rest);
  }

  /** HTTP/1.0 without a Connection field closes, and so does any request that asks for it. */
  lemma OldRequestCloses(lim: Limits, r: Request, i: nat, rest: string)
    requires r.WellFormed() && r.Within(lim) && r.First("connection", i)
    requires exists j: nat, pad, after :: r.First("content-length", j) && r.LengthAnnounced(j, pad, after)
    requires if i < |r.fields| then Contains(Lower(r.fields[i].1), "close") else !Contains(r.Text(), "HTTP/1.1")
    ensures Cut(lim, r.Text() + rest) == Some(Dispatch(r.Text(), false))
  {
    hide Cut, Contains, Request.Text;
    RequestIsCut(lim, r, i, rest);
    NoWordInNothing();
  }

  /** A request that announces more than the limit is answered 413 as soon as its header is
      there, whatever follows. */
  lemma LargeRequestIsRefused(lim: Limits, r: Request, i: nat, pad: string, digits: string, after: string, rest: string)
    requires r.WellFormed() && r.First("content-length", i) && i < |r.fields|
    requires r.fields[i].1 == pad + digits + after && AllBlank(pad) && AllBlank(after)
    requires AllDigits(digits) && digits != "" && 0 < lim.maxBody < LONG_MAX && Value(digits) > lim.maxBody
    ensures Cut(lim, Print(r.Block(), "") + rest) == Some(BodyTooLarge)
  {
    hide Find, Join, FindHeader;
    BlockOk(r);
    FieldLookup(r, "content-length", i);
    SaturationIsInvisible(Join(r.Block()), pad, digits, after, lim.maxBody);
    TerminatorOf(r.Block(), "");
    var text := Print(r.Block(), "");
    assert text[..|Join(r.Block())|] == Join(r.Block());
    CutIsLocal(lim, text, rest);
  }

  /** A well-formed request frames itself in front of anything. */
  lemma RequestFramesItself(lim: Limits, r: Request, rest: string)
    requires r.Pipelined() && r.Within(lim)
    ensures Cut(lim, r.Text() + rest) == Some(Dispatch(r.Text(), true))
    ensures Find(r.Text() + rest, END, 0) == Some(|Join(r.Block())|)
  {
    hide Cut, Find;
    BlockOk(r);
    AnnouncedIsRead(r);
    RequestKeepAlive(r);
    CutOfPrint(lim, r.Block(), r.body, rest);
    TerminatorOf(r.Block(), r.body);
    FindExtends(r.Text(), rest, END);
  }

  // ---- the request line ----

  /** src/Connection.cpp:50. */
  function ParseMethod(request: string): string {
    match Find(request, " ", 0)
    case None => "GET"
    case Some(pos) => request[..pos]
  }

  /** src/Connection.cpp:58. */
  function ParseUrl(request: string): string {
    match Find(request, " ", 0)
    case None => "/"
    case Some(pos1) =>
      match Find(request, " ", pos1 + 1)
      case None => "/"
      case Some(pos2) => request[pos1 + 1..pos2]
  }

  lemma FirstSpace(word: string, rest: string)
    requires ' ' !in word
    ensures Find(word + " " + rest, " ", 0) == Some(|word|)
  {
    hide Find;
    var s := word + " " + rest;
    assert s[|word|..|word| + 1] == " ";
    forall j | 0 <= j < |word| ensures !At(s, " ", j) {
      assert s[j] == word[j] && s[j..j + 1][0] == s[j];
    }
    FindIs(s, " ", 0, |word|);
  }

  /** Method and target, if free of spaces, are read back from any request text that starts
      with them. */
  lemma RequestLineReadsBack(method': string, target: string, rest: string)
    requires ' ' !in method' && ' ' !in target
    ensures ParseMethod(method' + " " + target + " " + rest) == method'
    ensures ParseUrl(method' + " " + target + " " + rest) == target
  {
    hide Find;
    var tail := target + " " + rest;
    var s := method' + " " + target + " " + rest;
    assert s == method' + " " + tail;
    FirstSpace(method', tail);
    FirstSpace(target, rest);
    FindShifts(s, |method'| + 1, " ");
    assert s[|method'| + 1..] == tail;
    assert s[..|method'|] == method';
    assert s[|method'| + 1..|method'| + 1 + |target|] == target;
  }

  /** So a dispatched request is routed by what its client wrote. */
  lemma RequestIsRouted(r: Request)
    requires ' ' !in r.method' && ' ' !in r.target
    ensures ParseMethod(r.Text()) == r.method' && ParseUrl(r.Text()) == r.target
  {
    hide ParseMethod, ParseUrl, Join, Request.Text;
    var l := r.Block();
    var post := if |l| == 1 then END + r.body else CRLF + Join(l[1..]) + END + r.body;
    BlockText(r);
    Glue(r.method' + " " + r.target + " ", r.version, post);
    RequestLineReadsBack(r.method', r.target, r.version + post);
  }

  /** A request text without spaces counts as a GET, and one without a second space as for
      the root. */
  lemma MalformedIsRoot(request: string)
    ensures !Contains(request, " ") ==> ParseMethod(request) == "GET" && ParseUrl(request) == "/"
    ensures forall word, rest :: request == word + " " + rest && ' ' !in word && ' ' !in rest ==>
              ParseMethod(request) == word && ParseUrl(request) == "/"
  {
    hide Find;
    forall word: string, rest: string | request == word + " " + rest && ' ' !in word && ' ' !in rest
      ensures ParseMethod(request) == word && ParseUrl(request) == "/"
    {
      FirstSpace(word, rest);
      assert request[..|word|] == word;
      FindShifts(request, |word| + 1, " ");
      assert request[|word| + 1..] == rest;
      ContainsNot(rest, " ");
    }
  }

  function RequestTexts(rs: seq<Request>): seq<string> {
    if rs == [] then [] else [rs[0].Text()] + RequestTexts(rs[1..])
  }

  function Dispatched(rs: seq<Request>): seq<Decision> {
    if rs == [] then [] else [Dispatch(rs[0].Text(), true)] + Dispatched(rs[1..])
  }

  /** Pipelining: a run of well-formed requests is dispatched one by one, in order, with
      nothing left over. */
  lemma {:induction false} PipelineRoundTrip(lim: Limits, rs: seq<Request>)
    requires forall i :: 0 <= i < |rs| ==> rs[i].Pipelined() && rs[i].Within(lim)
    ensures Drain(lim, Flatten(RequestTexts(rs))) == Outcome(Dispatched(rs), "")
  {
    hide Cut, Drain, Request.Text, Request.Pipelined, Request.Within;
    EmptyWaits(lim);
    if rs != [] {
      var r, rest := rs[0], Flatten(RequestTexts(rs[1..]));
      assert RequestTexts(rs)[1..] == RequestTexts(rs[1..]);
      RequestFramesItself(lim, r, rest);
      DrainPrepends(lim, r.Text(), rest);
      PipelineRoundTrip(lim, rs[1..]);
    }
  }

  lemma FitsPrepends(lim: Limits, r: Request, rest: string)
    requires r.Pipelined() && r.Within(lim) && r.HeaderWithin(lim) && HeadersFit(lim, rest)
    ensures HeadersFit(lim, r.Text() + rest)
  {
    hide Cut, Print;
    RequestFramesItself(lim, r, rest);
    DrainPrepends(lim, r.Text(), rest);
  }

  lemma {:induction false} PipelineFits(lim: Limits, rs: seq<Request>)
    requires forall i :: 0 <= i < |rs| ==> rs[i].Pipelined() && rs[i].Within(lim)
    requires forall i :: 0 <= i < |rs| ==> rs[i].HeaderWithin(lim)
    ensures HeadersFit(lim, Flatten(RequestTexts(rs)))
  {
    hide Cut, HeadersFit, Request.Text, Request.Pipelined, Request.Within, Request.HeaderWithin;
    EmptyWaits(lim);
    if rs != [] {
      var rest := Flatten(RequestTexts(rs[1..]));
      assert RequestTexts(rs)[1..] == RequestTexts(rs[1..]);
      PipelineFits(lim, rs[1..]);
      FitsPrepends(lim, rs[0], rest);
    }
  }

  lemma {:induction false} NeverCloses(rs: seq<Request>)
    ensures !Closes(Dispatched(rs)) && UpToClose(Dispatched(rs)) == Dispatched(rs)
  {
    if rs != [] {
      NeverCloses(rs[1..]);
      var t := Dispatched(rs[1..]);
      assert Dispatched(rs)[1..] == t;
      assert Closes(Dispatched(rs)) == Closes(t);
    }
  }

  /** The same, however TCP chops the pipeline into reads. */
  lemma PipelineSurvivesChunking(lim: Limits, rs: seq<Request>, chunks: seq<string>)
    requires forall i :: 0 <= i < |rs| ==> rs[i].Pipelined() && rs[i].Within(lim)
    requires forall i :: 0 <= i < |rs| ==> rs[i].HeaderWithin(lim)
    requires Flatten(chunks) == Flatten(RequestTexts(rs))
    ensures Run(lim, "", chunks) == Outcome(Dispatched(rs), "")
  {
    var stream := Flatten(RequestTexts(rs));
    PipelineFits(lim, rs);
    PipelineRoundTrip(lim, rs);
    NeverCloses(rs);
    ChunkingInvariance(lim, stream);
    assert Agrees(lim, chunks, stream);
    UpToCloseIsAll(Run(lim, "", chunks).decisions);
  }

  /** And so from the socket to the dispatcher: whatever the read calls return, as long as
      they return the pipeline's bytes, exactly its requests are dispatched. */
  lemma PipelineThroughReads(lim: Limits, rs: seq<Request>, pieces: seq<seq<string>>)
    requires forall i :: 0 <= i < |rs| ==> rs[i].Pipelined() && rs[i].Within(lim)
    requires forall i :: 0 <= i < |rs| ==> rs[i].HeaderWithin(lim)
    requires Flatten(FlattenEach(pieces)) == Flatten(RequestTexts(rs))
    ensures Reads(lim, "", Events(pieces)) == ReadRun(Outcome(Dispatched(rs), ""), false)
  {
    EventsAreRun(lim, "", pieces);
    PipelineSurvivesChunking(lim, rs, FlattenEach(pieces));
  }
}
