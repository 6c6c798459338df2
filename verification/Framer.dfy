/** The incremental request framer: `handleMessage` accumulates whatever a read returned,
    `processRequests` cuts complete requests off the front and hands them on. */
module Framer {
  import opened Wrappers
  import opened Strings
  import opened Numbers
  import opened Headers

  /** `kMaxHeaderBytes` and `kMaxBodyBytes`; 0 means unlimited. */
  datatype Limits = Limits(maxHeader: nat, maxBody: nat)

  datatype Decision =
    | Dispatch(request: string, keepAlive: bool)
    | BodyTooLarge    // 413, the buffer is dropped and the connection closes
    | HeaderTooLarge  // 400, likewise

  /** The decisions after which the server means to close the connection. */
  predicate Closing(d: Decision) {
    d.Dispatch? ==> !d.keepAlive
  }

  /** What one round of the loop sees at the front of the buffer; None: wait for more. */
  function Cut(lim: Limits, buf: string): (r: Option<Decision>)
    ensures r.Some? && r.value.Dispatch? ==>
              4 <= |r.value.request| <= |buf| && r.value.request == buf[..|r.value.request|]
  {
    match Find(buf, END, 0)
    case None =>
      if lim.maxHeader > 0 && |buf| > lim.maxHeader then Some(HeaderTooLarge) else None
    case Some(headerEnd) =>
      var headers := buf[..headerEnd];
      var bodyLen := ContentLength(headers);
      if lim.maxBody > 0 && bodyLen > lim.maxBody then Some(BodyTooLarge)
      else
        var total := headerEnd + 4 + bodyLen;
        if |buf| < total then None
        else Some(Dispatch(buf[..total], KeepAlive(buf[..total], headers)))
  }

  datatype Outcome = Outcome(decisions: seq<Decision>, rest: string)

  /** One call of `processRequests`. */
  function Drain(lim: Limits, buf: string): Outcome
    decreases |buf|
  {
    match Cut(lim, buf)
    case None => Outcome([], buf)
    case Some(d) =>
      if !d.Dispatch? then Outcome([d], "")
      else
        var rest := buf[|d.request|..];
        if !d.keepAlive then Outcome([d], rest)
        else
          var o := Drain(lim, rest);
          Outcome([d] + o.decisions, o.rest)
  }

  /** Successive read events, each followed by a call of `processRequests`. */
  function Run(lim: Limits, buf: string, chunks: seq<string>): Outcome
    decreases |chunks|
  {
    if chunks == [] then Outcome([], buf)
    else
      var o := Drain(lim, buf + chunks[0]);
      var r := Run(lim, o.rest, chunks[1..]);
      Outcome(o.decisions + r.decisions, r.rest)
  }

  /** The decisions up to and including the first closing one. */
  function UpToClose(ds: seq<Decision>): seq<Decision> {
    if ds == [] || Closing(ds[0]) then (if ds == [] then [] else [ds[0]])
    else [ds[0]] + UpToClose(ds[1..])
  }

  predicate Closes(ds: seq<Decision>) {
    ds != [] && Closing(ds[|ds| - 1])
  }

  /** Every header block that a single read of `s` would frame still fits the limit when
      only its last byte is missing. */
  predicate HeadersFit(lim: Limits, s: string)
    decreases |s|
  {
    match Find(s, END, 0)
    case None => true
    case Some(headerEnd) =>
      && (lim.maxHeader > 0 ==> headerEnd + 3 <= lim.maxHeader)
      && (match Cut(lim, s)
          case Some(Dispatch(request, true)) => HeadersFit(lim, s[|request|..])
          case _ => true)
  }

  /** A split of the stream leads to the same decisions as a single read and, when none of
      them closes, to the same leftover. */
  ghost predicate Agrees(lim: Limits, chunks: seq<string>, stream: string) {
    var r, o := Run(lim, "", chunks), Drain(lim, stream);
    UpToClose(r.decisions) == o.decisions && (!Closes(o.decisions) ==> r.rest == o.rest)
  }

  // ---- locality of one round ----

  lemma CutIsLocal(lim: Limits, a: string, b: string)
    requires Cut(lim, a).Some? && Cut(lim, a) != Some(HeaderTooLarge)
    ensures Cut(lim, a + b) == Cut(lim, a)
  {
    hide ContentLength, KeepAlive, Find;
    FindExtends(a, b, END);
    var headerEnd := Find(a, END, 0).value;
    assert (a + b)[..headerEnd] == a[..headerEnd];
    var total := headerEnd + 4 + ContentLength(a[..headerEnd]);
    if total <= |a| {
      assert (a + b)[..total] == a[..total];
    }
  }

  lemma OversizedHeaderIsLocal(lim: Limits, a: string, b: string)
    requires Cut(lim, a) == Some(HeaderTooLarge) && HeadersFit(lim, a + b)
    ensures Cut(lim, a + b) == Cut(lim, a)
  {
    hide ContentLength, KeepAlive, Find;
    if Find(a + b, END, 0).Some? {
      FindBeyond(a, b, END);
    }
  }

  /** Only the last decision of one call can be closing. */
  lemma {:induction false} DrainClosesLast(lim: Limits, buf: string)
    ensures UpToClose(Drain(lim, buf).decisions) == Drain(lim, buf).decisions
    decreases |buf|
  {
    hide Cut;
    match Cut(lim, buf)
    case Some(Dispatch(request, true)) =>
      DrainClosesLast(lim, buf[|request|..]);
      var o := Drain(lim, buf[|request|..]);
      assert ([Dispatch(request, true)] + o.decisions)[1..] == o.decisions;
    case _ =>
  }

  lemma {:induction false} UpToCloseConcat(a: seq<Decision>, b: seq<Decision>)
    requires UpToClose(a) == a
    ensures UpToClose(a + b) == if Closes(a) then a else a + UpToClose(b)
  {
    if a == [] {
      assert a + b == b;
    } else if Closing(a[0]) {
      assert a == [a[0]];
    } else {
      var d, t := a[0], a[1..];
      assert UpToClose(a)[1..] == UpToClose(t);
      UpToCloseConcat(t, b);
      assert a == [d] + t;
      assert (a + b)[0] == d && (a + b)[1..] == t + b;
      Prepend(d, t, UpToClose(b));
    }
  }

  lemma {:induction false} UpToCloseIsAll(ds: seq<Decision>)
    requires !Closes(UpToClose(ds))
    ensures UpToClose(ds) == ds
  {
    if ds != [] {
      assert !Closing(ds[0]) by {
        assert UpToClose(ds) != [];
      }
      var t := UpToClose(ds[1..]);
      assert UpToClose(ds) == [ds[0]] + t;
      UpToCloseIsAll(ds[1..]);
    }
  }

  // ---- progress ----

  /** Unless a call closes, what it leaves behind holds no complete request. */
  lemma {:induction false} DrainLeavesNothing(lim: Limits, buf: string)
    requires !Closes(Drain(lim, buf).decisions)
    ensures Cut(lim, Drain(lim, buf).rest).None?
    decreases |buf|
  {
    hide Cut;
    match Cut(lim, buf)
    case None =>
    case Some(d) =>
      assert d.Dispatch? && d.keepAlive by {
        assert !d.Dispatch? || !d.keepAlive ==> Drain(lim, buf).decisions == [d];
      }
      var o := Drain(lim, buf[|d.request|..]);
      assert Drain(lim, buf).decisions == [d] + o.decisions;
      DrainLeavesNothing(lim, buf[|d.request|..]);
  }

  /** A message that frames itself in front of `rest` is dispatched, then `rest` is drained. */
  lemma DrainPrepends(lim: Limits, text: string, rest: string)
    requires Cut(lim, text + rest) == Some(Dispatch(text, true))
    ensures var o := Drain(lim, rest);
            Drain(lim, text + rest) == Outcome([Dispatch(text, true)] + o.decisions, o.rest)
    ensures var headerEnd := Find(text + rest, END, 0).value;
            HeadersFit(lim, text + rest) <==>
            (lim.maxHeader > 0 ==> headerEnd + 3 <= lim.maxHeader) && HeadersFit(lim, rest)
  {
    hide ContentLength, KeepAlive, Find;
    assert (text + rest)[|text|..] == rest;
  }

  // ---- chunking ----

  /** Splitting a stream once: the first part's decisions are a prefix of the whole's, and
      unless they close, the whole continues from the first part's leftover. */
  lemma {:induction false} DrainSplits(lim: Limits, a: string, b: string)
    requires HeadersFit(lim, a + b)
    ensures var o := Drain(lim, a);
            if Closes(o.decisions) then Drain(lim, a + b).decisions == o.decisions
            else && Drain(lim, a + b).decisions == o.decisions + Drain(lim, o.rest + b).decisions
                 && Drain(lim, a + b).rest == Drain(lim, o.rest + b).rest
                 && HeadersFit(lim, o.rest + b)
    decreases |a|
  {
    hide ContentLength, KeepAlive, Find;
    var o := Drain(lim, a);
    match Cut(lim, a)
    case None =>
    case Some(HeaderTooLarge) =>
      OversizedHeaderIsLocal(lim, a, b);
    case Some(BodyTooLarge) =>
      CutIsLocal(lim, a, b);
    case Some(Dispatch(request, keepAlive)) =>
      CutIsLocal(lim, a, b);
      if keepAlive {
        DispatchThenSplit(lim, a, b, request);
      }
  }

  lemma Prepend(d: Decision, ds: seq<Decision>, es: seq<Decision>)
    requires !Closing(d)
    ensures [d] + (ds + es) == ([d] + ds) + es
    ensures Closes([d] + ds) == Closes(ds)
  {
  }

  lemma {:induction false} DispatchThenSplit(lim: Limits, a: string, b: string, request: string)
    requires HeadersFit(lim, a + b)
    requires Cut(lim, a) == Some(Dispatch(request, true)) && Cut(lim, a + b) == Cut(lim, a)
    ensures var o := Drain(lim, a);
            if Closes(o.decisions) then Drain(lim, a + b).decisions == o.decisions
            else && Drain(lim, a + b).decisions == o.decisions + Drain(lim, o.rest + b).decisions
                 && Drain(lim, a + b).rest == Drain(lim, o.rest + b).rest
                 && HeadersFit(lim, o.rest + b)
    decreases |a|, 0
  {
    hide ContentLength, KeepAlive, Find;
    var d := Dispatch(request, true);
    var t := a[|request|..];
    assert (a + b)[|request|..] == t + b;
    DrainSplits(lim, t, b);
    var o, p := Drain(lim, a), Drain(lim, t);
    assert o.decisions == [d] + p.decisions && o.rest == p.rest;
    assert Drain(lim, a + b).decisions == [d] + Drain(lim, t + b).decisions;
    Prepend(d, p.decisions, Drain(lim, p.rest + b).decisions);
  }

  /** Sufficiency, from any buffer that holds no complete request. */
  lemma {:induction false} RunIsDrain(lim: Limits, buf: string, chunks: seq<string>)
    requires Cut(lim, buf).None? && HeadersFit(lim, buf + Flatten(chunks))
    ensures var o := Drain(lim, buf + Flatten(chunks));
            && UpToClose(Run(lim, buf, chunks).decisions) == o.decisions
            && (!Closes(o.decisions) ==> Run(lim, buf, chunks).rest == o.rest)
    decreases |chunks|
  {
    hide Cut, Find;
    if chunks == [] {
      assert buf + Flatten(chunks) == buf;
    } else {
      var a, b := buf + chunks[0], Flatten(chunks[1..]);
      assert buf + Flatten(chunks) == a + b;
      var o := Drain(lim, a);
      var r := Run(lim, o.rest, chunks[1..]);
      DrainSplits(lim, a, b);
      DrainClosesLast(lim, a);
      UpToCloseConcat(o.decisions, r.decisions);
      if !Closes(o.decisions) {
        DrainLeavesNothing(lim, a);
        RunIsDrain(lim, o.rest, chunks[1..]);
        ClosesConcat(o.decisions, Drain(lim, o.rest + b).decisions);
      }
    }
  }

  lemma ClosesConcat(a: seq<Decision>, b: seq<Decision>)
    requires !Closes(a)
    ensures Closes(a + b) == Closes(b)
  {
    if b != [] {
      assert (a + b)[|a + b| - 1] == b[|b| - 1];
    } else {
      assert a + b == a;
    }
  }

  lemma FirstDecision(lim: Limits, buf: string)
    ensures var ds := Drain(lim, buf).decisions;
            if Cut(lim, buf).None? then ds == [] else ds != [] && ds[0] == Cut(lim, buf).value
  {
  }

  lemma LaterDecision(lim: Limits, buf: string, i: nat)
    requires 0 < i < |Drain(lim, buf).decisions|
    ensures Cut(lim, buf).Some? && Cut(lim, buf).value.Dispatch?
    ensures var rest := Drain(lim, buf[|Cut(lim, buf).value.request|..]).decisions;
            i <= |rest| && Drain(lim, buf).decisions[i] == rest[i - 1]
  {
  }

  lemma OversizedHeaderRefused(lim: Limits, s: string)
    requires Find(s, END, 0).Some? && 0 < lim.maxHeader < Find(s, END, 0).value + 3
    ensures var k := Find(s, END, 0).value + 3;
            && Drain(lim, s[..k]).decisions == [HeaderTooLarge]
            && Drain(lim, s).decisions != [HeaderTooLarge]
  {
    hide ContentLength, KeepAlive, Find;
    var k := Find(s, END, 0).value + 3;
    assert s[..k] + s[k..] == s;
    if Find(s[..k], END, 0).Some? {
      FindExtends(s[..k], s[k..], END);
    }
    FirstDecision(lim, s);
    assert Cut(lim, s) != Some(HeaderTooLarge);
  }

  lemma DispatchThenPart(lim: Limits, s: string, d: Decision, j: nat)
    requires Cut(lim, s) == Some(d) && d.Dispatch? && d.keepAlive && j <= |s| - |d.request|
    ensures Drain(lim, s[..|d.request| + j]).decisions == [d] + Drain(lim, s[|d.request|..][..j]).decisions
  {
    hide Cut, Find;
    var n := |d.request|;
    var part, whole := s[n..][..j], s[..n + j];
    CutOfRequest(lim, s);
    assert whole == d.request + part && whole[n..] == part;
    CutIsLocal(lim, d.request, part);
  }

  lemma UnfitHow(lim: Limits, s: string)
    requires !HeadersFit(lim, s)
    ensures Find(s, END, 0).Some?
    ensures 0 < lim.maxHeader < Find(s, END, 0).value + 3 ||
            (var d := Cut(lim, s);
             d.Some? && d.value.Dispatch? && d.value.keepAlive && !HeadersFit(lim, s[|d.value.request|..]))
  {
    hide ContentLength, KeepAlive, Find;
  }

  predicate EndsIn(ds: seq<Decision>, d: Decision) { ds != [] && ds[|ds| - 1] == d }

  /** Necessity: a header block that does not fit is answered 400 when its last byte is late,
      and a single read is answered otherwise. */
  lemma {:induction false} LateByte(lim: Limits, s: string) returns (k: nat)
    requires !HeadersFit(lim, s)
    ensures k <= |s| && EndsIn(Drain(lim, s[..k]).decisions, HeaderTooLarge)
    ensures Drain(lim, s[..k]).decisions != Drain(lim, s).decisions
    decreases |s|
  {
    hide ContentLength, KeepAlive, Find, Cut;
    UnfitHow(lim, s);
    if 0 < lim.maxHeader < Find(s, END, 0).value + 3 {
      k := Find(s, END, 0).value + 3;
      OversizedHeaderRefused(lim, s);
    } else {
      var d := Cut(lim, s).value;
      var rest := s[|d.request|..];
      var j := LateByte(lim, rest);
      k := |d.request| + j;
      DispatchThenPart(lim, s, d, j);
      DropFirst(d, Drain(lim, rest[..j]).decisions, Drain(lim, rest).decisions);
    }
  }

  lemma DropFirst(d: Decision, ds: seq<Decision>, es: seq<Decision>)
    requires ds != es
    ensures [d] + ds != [d] + es
    ensures forall e :: EndsIn(ds, e) ==> EndsIn([d] + ds, e)
  {
    assert ([d] + ds)[1..] == ds && ([d] + es)[1..] == es;
  }

  lemma TerminatorInRequest(lim: Limits, buf: string)
    requires Cut(lim, buf).Some? && Cut(lim, buf).value.Dispatch?
    ensures Find(Cut(lim, buf).value.request, END, 0) == Find(buf, END, 0)
  {
    hide ContentLength, KeepAlive, Find;
    var headerEnd := Find(buf, END, 0).value;
    var request := Cut(lim, buf).value.request;
    var rest := buf[|request|..];
    assert buf == request + rest;
    AtExtends(request, rest, END, headerEnd);
    FindIsFirst(request, END, 0, headerEnd);
    FindExtends(request, rest, END);
  }

  /** A dispatched request frames itself. */
  lemma CutOfRequest(lim: Limits, buf: string)
    requires Cut(lim, buf).Some? && Cut(lim, buf).value.Dispatch?
    ensures Cut(lim, Cut(lim, buf).value.request) == Cut(lim, buf)
    ensures Find(Cut(lim, buf).value.request, END, 0) == Find(buf, END, 0)
  {
    hide ContentLength, KeepAlive, Find;
    TerminatorInRequest(lim, buf);
    var headerEnd := Find(buf, END, 0).value;
    var request := Cut(lim, buf).value.request;
    assert request[..headerEnd] == buf[..headerEnd];
    assert request[..|request|] == request;
  }

  /** When the guards fire: 400 exactly for an unterminated buffer above the header limit, 413
      exactly for a terminated one whose announced length is above the body limit. */
  lemma GuardsFire(lim: Limits, buf: string)
    ensures Cut(lim, buf) == Some(HeaderTooLarge) <==> !Contains(buf, END) && 0 < lim.maxHeader < |buf|
    ensures forall headers, rest :: buf == headers + END + rest && Find(buf, END, 0) == Some(|headers|) ==>
              (Cut(lim, buf) == Some(BodyTooLarge) <==> 0 < lim.maxBody < ContentLength(headers))
    ensures Cut(lim, buf) == Some(BodyTooLarge) ==> Contains(buf, END)
  {
    hide ContentLength, KeepAlive, Find;
    forall headers, rest | buf == headers + END + rest && Find(buf, END, 0) == Some(|headers|)
      ensures Cut(lim, buf) == Some(BodyTooLarge) <==> 0 < lim.maxBody < ContentLength(headers)
    {
      assert buf[..|headers|] == headers;
    }
  }

  lemma EmptyWaits(lim: Limits)
    ensures Cut(lim, "").None? && Drain(lim, "") == Outcome([], "") && HeadersFit(lim, "")
  {
  }

  /** Chunking invariance, exactly: every split of a byte stream into reads leads to the
      decisions of a single read if and only if the stream's header blocks fit. */
  lemma ChunkingInvariance(lim: Limits, stream: string)
    ensures HeadersFit(lim, stream) <==>
            forall chunks :: Flatten(chunks) == stream ==> Agrees(lim, chunks, stream)
  {
    hide Cut, Find;
    if HeadersFit(lim, stream) {
      EmptyWaits(lim);
      forall chunks | Flatten(chunks) == stream ensures Agrees(lim, chunks, stream) {
        assert "" + Flatten(chunks) == stream;
        RunIsDrain(lim, "", chunks);
      }
    } else {
      var k := LateByte(lim, stream);
      var chunks := [stream[..k], stream[k..]];
      assert Flatten(chunks) == stream by {
        assert chunks[1..] == [stream[k..]] && chunks[1..][1..] == [];
        assert Flatten(chunks[1..]) == stream[k..];
      }
      assert "" + stream[..k] == stream[..k];
      var o := Drain(lim, stream[..k]);
      DrainClosesLast(lim, stream[..k]);
      UpToCloseConcat(o.decisions, Run(lim, o.rest, chunks[1..]).decisions);
      assert !Agrees(lim, chunks, stream);
    }
  }

  // ---- conservation, bounds ----

  /** The bytes handed on by a list of decisions. */
  function Requests(ds: seq<Decision>): seq<string> {
    if ds == [] then []
    else (if ds[0].Dispatch? then [ds[0].request] else []) + Requests(ds[1..])
  }

  predicate Rejects(ds: seq<Decision>) {
    exists i :: 0 <= i < |ds| && !ds[i].Dispatch?
  }

  lemma PrependRequest(d: Decision, ds: seq<Decision>, rest: string)
    requires d.Dispatch?
    ensures Rejects([d] + ds) <==> Rejects(ds)
    ensures Flatten(Requests([d] + ds)) + rest == d.request + (Flatten(Requests(ds)) + rest)
  {
    var all := [d] + ds;
    assert all[1..] == ds;
    assert Requests(all) == [d.request] + Requests(ds);
    assert Requests(all)[1..] == Requests(ds);
    if Rejects(ds) {
      var i :| 0 <= i < |ds| && !ds[i].Dispatch?;
      assert all[i + 1] == ds[i];
    }
    if Rejects(all) {
      var i :| 0 <= i < |all| && !all[i].Dispatch?;
      assert ds[i - 1] == all[i];
    }
  }

  /** No byte is lost or duplicated: unless a size guard fires, which drops the buffer, the
      requests handed on followed by the leftover are the buffer. */
  lemma {:induction false} DrainConserves(lim: Limits, buf: string)
    ensures var o := Drain(lim, buf);
            if Rejects(o.decisions) then o.rest == "" else Flatten(Requests(o.decisions)) + o.rest == buf
    decreases |buf|
  {
    hide ContentLength, KeepAlive, Find;
    match Cut(lim, buf)
    case None =>
    case Some(d) =>
      if !d.Dispatch? {
        assert Drain(lim, buf).decisions[0] == d;
      } else {
        var rest := buf[|d.request|..];
        assert d.request + rest == buf;
        if !d.keepAlive {
          PrependRequest(d, [], rest);
          assert [d] + [] == [d];
        } else {
          DrainConserves(lim, rest);
          PrependRequest(d, Drain(lim, rest).decisions, Drain(lim, rest).rest);
        }
      }
  }

  /** `parseBody` (src/Connection.cpp:69). */
  function ParseBody(request: string): string {
    match Find(request, END, 0)
    case None => ""
    case Some(pos) => request[pos + 4..]
  }

  predicate BodyMatches(request: string) {
    match Find(request, END, 0)
    case None => false
    case Some(pos) => |ParseBody(request)| == ContentLength(request[..pos])
  }

  lemma DispatchedBody(lim: Limits, buf: string)
    requires Cut(lim, buf).Some? && Cut(lim, buf).value.Dispatch?
    ensures BodyMatches(Cut(lim, buf).value.request)
  {
    hide KeepAlive, Find;
    var request := Cut(lim, buf).value.request;
    CutOfRequest(lim, buf);
    var headerEnd := Find(buf, END, 0).value;
    assert request[..headerEnd] == buf[..headerEnd];
    assert |request| == headerEnd + 4 + ContentLength(buf[..headerEnd]);
  }

  /** Every request handed on carries exactly the body its Content-Length announced. */
  lemma {:induction false} BodiesMatch(lim: Limits, buf: string, i: nat)
    requires i < |Drain(lim, buf).decisions| && Drain(lim, buf).decisions[i].Dispatch?
    ensures BodyMatches(Drain(lim, buf).decisions[i].request)
    decreases |buf|
  {
    hide Cut, Find, BodyMatches;
    FirstDecision(lim, buf);
    if i == 0 {
      DispatchedBody(lim, buf);
    } else {
      LaterDecision(lim, buf, i);
      var d := Cut(lim, buf).value;
      BodiesMatch(lim, buf[|d.request|..], i - 1);
    }
  }

  /** What a non-closing call may leave behind, and that `total` then fits in `size_t`. */
  lemma {:induction false} LeftoverIsBounded(lim: Limits, buf: string)
    requires !Closes(Drain(lim, buf).decisions)
    ensures var rest := Drain(lim, buf).rest;
            match Find(rest, END, 0)
            case None => lim.maxHeader > 0 ==> |rest| <= lim.maxHeader
            case Some(headerEnd) =>
              var bodyLen := ContentLength(rest[..headerEnd]);
              && |rest| < headerEnd + 4 + bodyLen
              && (lim.maxBody > 0 ==> bodyLen <= lim.maxBody)
              && (|rest| <= LONG_MAX ==> headerEnd + 4 + bodyLen < SIZE_T)
  {
    DrainLeavesNothing(lim, buf);
  }

  // ---- the connection object ----

  /** The outcome of one `read` call on the socket. */
  datatype ReadResult = Data(bytes: string) | Interrupted | WouldBlock | Closed

  /** What a run of calls delivers before it stops, and whether it stopped because the peer
      closed or the read failed.  A list of calls that ends counts as EAGAIN. */
  function Received(calls: seq<ReadResult>): (string, bool) {
    if calls == [] || calls[0].WouldBlock? then ("", false)
    else if calls[0].Closed? then ("", true)
    else
      var (bytes, closed) := Received(calls[1..]);
      (if calls[0].Data? then calls[0].bytes + bytes else bytes, closed)
  }

  lemma TotalDoesNotWrap(headerEnd: nat, bodyLen: nat)
    requires headerEnd + 4 <= LONG_MAX && bodyLen <= LONG_MAX
    ensures (headerEnd + 4 + bodyLen) % SIZE_T == headerEnd + 4 + bodyLen
  {
  }

  /** One round of the loop (src/Connection.cpp:765-798), in `size_t` arithmetic.  A
      `std::string` cannot exceed `LONG_MAX` bytes, so `total` does not wrap. */
  method CutFront(lim: Limits, buf: string) returns (r: Option<Decision>)
    requires |buf| <= LONG_MAX
    ensures r == Cut(lim, buf)
  {
    var found := Find(buf, END, 0);
    if found.None? {
      if lim.maxHeader > 0 && |buf| > lim.maxHeader {
        return Some(HeaderTooLarge);
      }
      return None;
    }
    var headerEnd := found.value;
    var headers := buf[..headerEnd];
    var bodyLen := RequestContentLength(headers);
    if lim.maxBody > 0 && bodyLen > lim.maxBody {
      return Some(BodyTooLarge);
    }
    var total := (headerEnd + 4 + bodyLen) % SIZE_T;
    assert total == headerEnd + 4 + bodyLen by { TotalDoesNotWrap(headerEnd, bodyLen); }
    if |buf| < total {
      return None;
    }
    var request := buf[..total];
    var keepAlive := WantKeepAlive(request, headers);
    return Some(Dispatch(request, keepAlive));
  }

  lemma DrainStep(lim: Limits, buf: string, before: seq<Decision>, d: Decision)
    requires Cut(lim, buf) == Some(d)
    ensures d.Dispatch? && d.keepAlive ==>
              var p := Drain(lim, buf[|d.request|..]);
              Drain(lim, buf).rest == p.rest && before + Drain(lim, buf).decisions == before + [d] + p.decisions
    ensures d.Dispatch? && !d.keepAlive ==> Drain(lim, buf) == Outcome([d], buf[|d.request|..])
    ensures !d.Dispatch? ==> Drain(lim, buf) == Outcome([d], "")
  {
  }

  class Connection {
    const lim: Limits
    var inputBuffer: string
    var decisions: seq<Decision>  // what was dispatched or refused, in order
    var deleted: bool

    constructor (lim: Limits)
      ensures this.lim == lim && inputBuffer == "" && decisions == [] && !deleted
    {
      this.lim := lim;
      inputBuffer, decisions, deleted := "", [], false;
    }

    /** src/Connection.cpp:761. */
    method ProcessRequests()
      requires |inputBuffer| <= LONG_MAX
      modifies this`inputBuffer, this`decisions
      ensures decisions == old(decisions) + Drain(lim, old(inputBuffer)).decisions
      ensures inputBuffer == Drain(lim, old(inputBuffer)).rest
    {
      ghost var all := Drain(lim, inputBuffer);
      var more := true;
      while more
        invariant |inputBuffer| <= LONG_MAX
        invariant more ==> decisions + Drain(lim, inputBuffer).decisions == old(decisions) + all.decisions
        invariant more ==> Drain(lim, inputBuffer).rest == all.rest
        invariant !more ==> decisions == old(decisions) + all.decisions && inputBuffer == all.rest
        decreases more, |inputBuffer|
      {
        var found := CutFront(lim, inputBuffer);
        ghost var buf, before := inputBuffer, decisions;
        if found.None? {
          more := false;
        } else {
          decisions := decisions + [found.value];
          if found.value.Dispatch? {
            inputBuffer := inputBuffer[|found.value.request|..];
            more := found.value.keepAlive;
          } else {
            inputBuffer := "";
            more := false;
          }
          DrainStep(lim, buf, before, found.value);
        }
      }
    }

    /** The read loop of src/Connection.cpp:730-751. */
    method ReadAll(calls: seq<ReadResult>) returns (closed: bool)
      modifies this`inputBuffer
      ensures (inputBuffer, closed) == (old(inputBuffer) + Received(calls).0, Received(calls).1)
    {
      var i := 0;
      assert calls[0..] == calls;
      while i < |calls|
        invariant i <= |calls|
        invariant inputBuffer + Received(calls[i..]).0 == old(inputBuffer) + Received(calls).0
        invariant Received(calls[i..]).1 == Received(calls).1
      {
        var call := calls[i];
        assert calls[i..][0] == call && calls[i..][1..] == calls[i + 1..];
        if call.WouldBlock? || call.Closed? {
          assert inputBuffer + "" == inputBuffer;
          return call.Closed?;
        }
        if call.Data? {
          inputBuffer := inputBuffer + call.bytes;
        }
        i := i + 1;
      }
      assert calls[i..] == [] && inputBuffer + "" == inputBuffer;
      return false;
    }

    /** src/Connection.cpp:724: drain the socket, then frame; a closed peer tears the
        connection down with whatever was buffered. */
    method HandleMessage(calls: seq<ReadResult>)
      requires |inputBuffer| + |Received(calls).0| <= LONG_MAX
      modifies this
      ensures var (bytes, closed) := Received(calls);
              if closed then deleted && decisions == old(decisions) && inputBuffer == old(inputBuffer) + bytes
              else && deleted == old(deleted)
                   && decisions == old(decisions) + Drain(lim, old(inputBuffer) + bytes).decisions
                   && inputBuffer == Drain(lim, old(inputBuffer) + bytes).rest
    {
      var closed := ReadAll(calls);
      if closed {
        deleted := true;
        return;
      }
      ProcessRequests();
    }

    /** A series of read events on one connection; a deleted one gets no more of them. */
    method HandleEvents(events: seq<seq<ReadResult>>)
      requires |inputBuffer| + |Flatten(Chunks(events))| <= LONG_MAX && !deleted
      modifies this
      ensures var r := Reads(lim, old(inputBuffer), events);
              && decisions == old(decisions) + r.outcome.decisions
              && inputBuffer == r.outcome.rest && deleted == r.closed
    {
      ghost var all := Reads(lim, inputBuffer, events);
      assert events[0..] == events;
      var i := 0;
      while i < |events| && !deleted
        invariant i <= |events|
        invariant !deleted ==> |inputBuffer| + |Flatten(Chunks(events[i..]))| <= LONG_MAX
        invariant !deleted ==>
                    var r := Reads(lim, inputBuffer, events[i..]);
                    && decisions + r.outcome.decisions == old(decisions) + all.outcome.decisions
                    && r.outcome.rest == all.outcome.rest && r.closed == all.closed
        invariant deleted ==>
                    && decisions == old(decisions) + all.outcome.decisions
                    && inputBuffer == all.outcome.rest && all.closed
      {
        EventStep(lim, inputBuffer, decisions, events, i);
        HandleMessage(events[i]);
        i := i + 1;
      }
      assert !deleted ==> events[i..] == [];
    }
  }

  function Chunks(events: seq<seq<ReadResult>>): seq<string> {
    if events == [] then [] else [Received(events[0]).0] + Chunks(events[1..])
  }

  /** What a series of read events leads to. */
  datatype ReadRun = ReadRun(outcome: Outcome, closed: bool)

  function Reads(lim: Limits, buf: string, events: seq<seq<ReadResult>>): ReadRun
    decreases |events|
  {
    if events == [] then ReadRun(Outcome([], buf), false)
    else
      var (bytes, closed) := Received(events[0]);
      if closed then ReadRun(Outcome([], buf + bytes), true)
      else
        var o := Drain(lim, buf + bytes);
        var r := Reads(lim, o.rest, events[1..]);
        ReadRun(Outcome(o.decisions + r.outcome.decisions, r.outcome.rest), r.closed)
  }

  lemma EventStep(lim: Limits, buf: string, before: seq<Decision>, events: seq<seq<ReadResult>>, i: nat)
    requires i < |events|
    ensures var (bytes, closed) := Received(events[i]);
            var o, r := Drain(lim, buf + bytes), Reads(lim, buf, events[i..]);
            && |bytes| <= |Flatten(Chunks(events[i..]))|
            && |o.rest| + |Flatten(Chunks(events[i + 1..]))| <= |buf| + |Flatten(Chunks(events[i..]))|
            && if closed then r == ReadRun(Outcome([], buf + bytes), true)
               else
                 var r' := Reads(lim, o.rest, events[i + 1..]);
                 && before + r.outcome.decisions == before + o.decisions + r'.outcome.decisions
                 && r.outcome.rest == r'.outcome.rest && r.closed == r'.closed
  {
    hide Drain, Received;
    var all, rest := Chunks(events[i..]), Chunks(events[i + 1..]);
    assert events[i..][0] == events[i] && events[i..][1..] == events[i + 1..] && all[1..] == rest;
    assert Flatten(all) == Received(events[i]).0 + Flatten(rest);
    DrainShrinks(lim, buf + Received(events[i]).0);
  }

  lemma {:induction false} DrainShrinks(lim: Limits, buf: string)
    ensures |Drain(lim, buf).rest| <= |buf|
    decreases |buf|
  {
    match Cut(lim, buf)
    case Some(Dispatch(request, true)) => DrainShrinks(lim, buf[|request|..]);
    case _ =>
  }

  // ---- the end of the stream ----

  /** The first event that meets the end of the stream, or one past the last. */
  function FirstClosed(events: seq<seq<ReadResult>>): (n: nat)
    ensures n <= |events| && (n < |events| ==> Received(events[n]).1)
    ensures forall i :: 0 <= i < n ==> !Received(events[i]).1
  {
    if events == [] || Received(events[0]).1 then 0 else 1 + FirstClosed(events[1..])
  }

  /** The events before the end of the stream are framed as if there were no end; what the
      event of the end itself read is buffered and never framed. */
  lemma {:induction false} ReadsUpToEnd(lim: Limits, buf: string, events: seq<seq<ReadResult>>)
    ensures var n, r := FirstClosed(events), Reads(lim, buf, events);
            var o := Run(lim, buf, Chunks(events[..n]));
            && r.closed == (n < |events|) && r.outcome.decisions == o.decisions
            && r.outcome.rest == if r.closed then o.rest + Received(events[n]).0 else o.rest
    decreases |events|
  {
    hide Drain, Received;
    if events != [] && !Received(events[0]).1 {
      var n := FirstClosed(events);
      assert events[..n][1..] == events[1..][..n - 1];
      var chunks := Chunks(events[..n]);
      assert chunks[0] == Received(events[0]).0 && chunks[1..] == Chunks(events[1..][..n - 1]);
      ReadsUpToEnd(lim, Drain(lim, buf + Received(events[0]).0).rest, events[1..]);
    }
  }

  /** One more read event at the end. */
  lemma {:induction false} RunAppends(lim: Limits, buf: string, chunks: seq<string>, last: string)
    ensures var o := Run(lim, buf, chunks);
            var p := Drain(lim, o.rest + last);
            Run(lim, buf, chunks + [last]) == Outcome(o.decisions + p.decisions, p.rest)
    decreases |chunks|
  {
    hide Drain;
    if chunks == [] {
      assert chunks + [last] == [last] && [last][1..] == [];
    } else {
      assert (chunks + [last])[0] == chunks[0] && (chunks + [last])[1..] == chunks[1..] + [last];
      RunAppends(lim, Drain(lim, buf + chunks[0]).rest, chunks[1..], last);
    }
  }

  /** Which requests are served when the peer closes: those of the events before.  Compared
      with the same bytes and no end of stream, nothing is dropped if and only if the event
      of the end leaves the front of the buffer incomplete. */
  lemma EndDropsItsEvent(lim: Limits, buf: string, events: seq<seq<ReadResult>>)
    requires FirstClosed(events) < |events|
    ensures var n := FirstClosed(events);
            var chunks, last := Chunks(events[..n]), Received(events[n]).0;
            var served, o := Reads(lim, buf, events).outcome.decisions, Run(lim, buf, chunks);
            && served == o.decisions
            && (served == Run(lim, buf, chunks + [last]).decisions <==> Cut(lim, o.rest + last).None?)
  {
    hide Cut, Received, Drain;
    var n := FirstClosed(events);
    var chunks, last := Chunks(events[..n]), Received(events[n]).0;
    ReadsUpToEnd(lim, buf, events);
    RunAppends(lim, buf, chunks, last);
    FirstDecision(lim, Run(lim, buf, chunks).rest + last);
  }

  // ---- what the read loop delivers ----

  function DataReads(chunks: seq<string>): seq<ReadResult> {
    if chunks == [] then [] else [Data(chunks[0])] + DataReads(chunks[1..])
  }

  /** Reads up to EAGAIN or the end of the stream deliver their bytes, all of them and in
      order, and nothing of what would come after. */
  lemma {:induction false} ReadsDeliver(chunks: seq<string>, last: ReadResult, more: seq<ReadResult>)
    requires last.WouldBlock? || last.Closed?
    ensures Received(DataReads(chunks) + [last] + more) == (Flatten(chunks), last.Closed?)
  {
    var calls := DataReads(chunks) + [last] + more;
    if chunks != [] {
      assert calls[0] == Data(chunks[0]) && calls[1..] == DataReads(chunks[1..]) + [last] + more;
      ReadsDeliver(chunks[1..], last, more);
    } else {
      assert calls[0] == last;
    }
  }

  /** EINTR is retried: it changes nothing, wherever it comes. */
  lemma {:induction false} InterruptedReadIsNothing(a: seq<ReadResult>, b: seq<ReadResult>)
    ensures Received(a + [Interrupted] + b) == Received(a + b)
  {
    var all := a + [Interrupted] + b;
    if a == [] {
      assert all[0] == Interrupted && all[1..] == b && a + b == b;
    } else {
      assert all[0] == a[0] && all[1..] == a[1..] + [Interrupted] + b;
      assert (a + b)[0] == a[0] && (a + b)[1..] == a[1..] + b;
      InterruptedReadIsNothing(a[1..], b);
    }
  }

  /** Read events whose calls return these pieces, each event up to EAGAIN. */
  function Events(pieces: seq<seq<string>>): seq<seq<ReadResult>> {
    if pieces == [] then [] else [DataReads(pieces[0]) + [WouldBlock]] + Events(pieces[1..])
  }

  function FlattenEach(pieces: seq<seq<string>>): seq<string> {
    if pieces == [] then [] else [Flatten(pieces[0])] + FlattenEach(pieces[1..])
  }

  /** So events that deliver pieces of a stream are the specification's run over it. */
  lemma {:induction false} EventsAreRun(lim: Limits, buf: string, pieces: seq<seq<string>>)
    ensures Reads(lim, buf, Events(pieces)) == ReadRun(Run(lim, buf, FlattenEach(pieces)), false)
    decreases |pieces|
  {
    hide Drain, Received;
    if pieces != [] {
      var events, chunks := Events(pieces), FlattenEach(pieces);
      ReadsDeliver(pieces[0], WouldBlock, []);
      assert DataReads(pieces[0]) + [WouldBlock] + [] == events[0];
      assert events[1..] == Events(pieces[1..]) && chunks[1..] == FlattenEach(pieces[1..]);
      EventsAreRun(lim, Drain(lim, buf + chunks[0]).rest, pieces[1..]);
    }
  }
}
