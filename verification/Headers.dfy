/** The header block of a message: its lines, the case-insensitive field lookup and the
    two values the framer takes from it. */
module Headers {
  import opened Wrappers
  import opened Strings
  import opened Numbers

  /** The CRLF-separated lines of a header block. */
  function Lines(block: string): seq<string>
    decreases |block|
  {
    if block == "" then []
    else match Find(block, CRLF, 0)
      case None => [block]
      case Some(e) => [block[..e]] + Lines(block[e + 2..])
  }

  /** A line's folded field name and raw value, if it holds a colon. */
  function Field(line: string): Option<(string, string)> {
    match Find(line, ":", 0)
    case None => None
    case Some(c) => Some((RTrim(Lower(line[..c])), line[c + 1..]))
  }

  predicate Named(line: string, name: string) {
    Field(line).Some? && Field(line).value.0 == name
  }

  /** The value of the first line with that name, or "" (src/Connection.cpp:93). */
  function ValueIn(lines: seq<string>, name: string): string {
    if lines == [] then ""
    else if Named(lines[0], name) then Field(lines[0]).value.1
    else ValueIn(lines[1..], name)
  }

  function FindHeader(block: string, name: string): string {
    ValueIn(Lines(block), name)
  }

  /** The lookup is decided by the first line of that name and by nothing else. */
  lemma {:induction false} FirstLineWins(lines: seq<string>, name: string, k: nat)
    requires k <= |lines|
    requires forall i :: 0 <= i < k ==> !Named(lines[i], name)
    requires k < |lines| ==> Named(lines[k], name)
    ensures ValueIn(lines, name) == if k < |lines| then Field(lines[k]).value.1 else ""
  {
    if 0 < k {
      FirstLineWins(lines[1..], name, k - 1);
    }
  }

  /** One round of the scan: the line at offset `p` ends at the next CRLF. */
  lemma NextLine(headers: string, p: nat, e: nat)
    requires p < |headers|
    requires e == match Find(headers, CRLF, p) case None => |headers| case Some(i) => i
    ensures p <= e <= |headers|
    ensures Lines(headers[p..]) ==
            [headers[p..e]] + if e + 2 < |headers| then Lines(headers[e + 2..]) else []
  {
    hide Find, Lines;
    FindShifts(headers, p, CRLF);
    FirstLine(headers[p..]);
    LineAt(headers, p, e, Find(headers, CRLF, p).Some?);
  }

  /** The same in terms of the whole block's offsets. */
  lemma LineAt(headers: string, p: nat, e: nat, found: bool)
    requires p <= e <= |headers| && (if found then e + 2 <= |headers| else e == |headers|)
    requires var here, i := headers[p..], e - p;
             if found then Lines(here) == [here[..i]] + if i + 2 < |here| then Lines(here[i + 2..]) else []
             else Lines(here) == [here]
    ensures Lines(headers[p..]) ==
            [headers[p..e]] + if e + 2 < |headers| then Lines(headers[e + 2..]) else []
  {
    hide Lines;
    if found {
      Pieces(headers, p, e - p);
    } else {
      assert headers[p..e] == headers[p..];
    }
  }

  lemma FirstLine(block: string)
    requires block != ""
    ensures match Find(block, CRLF, 0)
            case None => Lines(block) == [block]
            case Some(e) =>
              && e + 2 <= |block|
              && Lines(block) == [block[..e]] + if e + 2 < |block| then Lines(block[e + 2..]) else []
  {
    hide Find;
    if Find(block, CRLF, 0).Some? {
      var e := Find(block, CRLF, 0).value;
      assert e + 2 == |block| ==> block[e + 2..] == "";
    }
  }

  lemma Pieces(s: string, p: nat, i: nat)
    requires p + i + 2 <= |s|
    ensures s[p..][..i] == s[p..p + i] && s[p..][i + 2..] == s[p + i + 2..]
  {
  }

  lemma NextLookup(headers: string, name: string, p: nat, e: nat)
    requires p < |headers|
    requires e == match Find(headers, CRLF, p) case None => |headers| case Some(i) => i
    ensures p <= e <= |headers|
    ensures FindHeader(headers[p..], name) ==
            if Named(headers[p..e], name) then Field(headers[p..e]).value.1
            else if e + 2 < |headers| then FindHeader(headers[e + 2..], name)
            else ""
  {
    hide Field, Find, Lines;
    NextLine(headers, p, e);
    var rest := if e + 2 < |headers| then Lines(headers[e + 2..]) else [];
    var lines := [headers[p..e]] + rest;
    assert lines[1..] == rest;
    assert ValueIn(lines, name) == if Named(lines[0], name) then Field(lines[0]).value.1 else ValueIn(rest, name);
  }

  lemma NothingInNothing(name: string)
    ensures FindHeader("", name) == ""
  {
  }

  /** The scan of src/Connection.cpp:93-116, offset by offset. */
  method ScanHeader(headers: string, lowerName: string) returns (value: string)
    ensures value == FindHeader(headers, lowerName)
  {
    hide FindHeader, Find;
    var p := 0;
    assert headers[p..] == headers;
    NothingInNothing(lowerName);
    while p < |headers|
      invariant FindHeader(headers, lowerName) ==
                if p < |headers| then FindHeader(headers[p..], lowerName) else ""
      decreases |headers| - p
    {
      var found := Find(headers, CRLF, p);
      var e := if found.Some? then found.value else |headers|;
      var line := headers[p..e];
      NextLookup(headers, lowerName, p, e);
      p := e + 2;

      var colon := Find(line, ":", 0);
      if colon.Some? {
        var name := LowerEach(line[..colon.value]);
        name := PopBlanks(name);
        if name == lowerName {
          return line[colon.value + 1..];
        }
      }
    }
    return "";
  }

  /** Content-Length of a header block; 0 when absent, not positive or not a number. */
  function ContentLength(block: string): (n: nat)
    ensures n <= LONG_MAX
  {
    var value := FindHeader(block, "content-length");
    if value == "" then 0
    else
      var v := Strtol(value);
      if v > 0 then v else 0
  }

  /** Connection: close, then keep-alive, then the protocol version decide. */
  predicate KeepAlive(request: string, block: string) {
    var value := Lower(FindHeader(block, "connection"));
    if Contains(value, "close") then false
    else if Contains(value, "keep-alive") then true
    else Contains(request, "HTTP/1.1")
  }

  method RequestContentLength(headers: string) returns (n: nat)
    ensures n == ContentLength(headers)
  {
    var value := ScanHeader(headers, "content-length");
    if value == "" {
      return 0;
    }
    var v := Strtol(value);
    return if v > 0 then v else 0;
  }

  method WantKeepAlive(request: string, headers: string) returns (r: bool)
    ensures r == KeepAlive(request, headers)
  {
    var value := ScanHeader(headers, "connection");
    value := LowerEach(value);
    if Find(value, "close", 0).Some? {
      return false;
    }
    if Find(value, "keep-alive", 0).Some? {
      return true;
    }
    return Find(request, "HTTP/1.1", 0).Some?;
  }

  /** A negative length counts as none. */
  lemma NegativeLengthIsNone(block: string, pad: string, rest: string)
    requires FindHeader(block, "content-length") == pad + "-" + rest && AllSpace(pad)
    ensures ContentLength(block) == 0
  {
    hide FindHeader;
    var value := pad + "-" + rest;
    assert value == pad + ("-" + rest);
    SpacesOf(pad, "-" + rest);
    assert value[|pad|..][0] == '-';
  }

  /** Saturation is invisible below the limit: for a digit string of any length and a body
      limit that `long` can exceed, the saturated value passes the limit exactly when the
      true value does, and then it is the true value. */
  lemma SaturationIsInvisible(block: string, pad: string, digits: string, rest: string, limit: nat)
    requires FindHeader(block, "content-length") == pad + digits + rest
    requires AllSpace(pad) && AllDigits(digits) && digits != "" && (rest != "" ==> !IsDigit(rest[0]))
    requires limit < LONG_MAX
    ensures ContentLength(block) > limit <==> Value(digits) > limit
    ensures ContentLength(block) <= limit ==> ContentLength(block) == Value(digits)
  {
    StrtolOfDigits(pad, digits, rest);
  }

  /** The Connection value decides first, close before keep-alive; without either word the
      request is kept open exactly if it mentions HTTP/1.1. */
  lemma ConnectionDecides(request: string, block: string)
    ensures var value := Lower(FindHeader(block, "connection"));
            KeepAlive(request, block) <==>
            !Contains(value, "close") && (Contains(value, "keep-alive") || Contains(request, "HTTP/1.1"))
  {
  }

  /** A block that names no length announces none. */
  lemma NoLengthIsNone(block: string)
    requires FindHeader(block, "content-length") == ""
    ensures ContentLength(block) == 0
  {
  }
}
