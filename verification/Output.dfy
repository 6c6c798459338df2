/** The output side of a connection: a buffer drained by `write`, then a file drained by
    `sendfile`, both resumed by EPOLLOUT after a short write. */
module Output {
  import opened Wrappers
  import opened Strings
  import opened Numbers
  import opened Framer
  import opened Messages

  /** The outcome of one `write` or `sendfile` call.  `Wrote` carries how much the kernel
      was willing to take; a zero counts as an error in both loops. */
  datatype Call = Wrote(n: nat) | Interrupted | WouldBlock | Failed

  datatype Out = Out(
    buf: string, index: nat,        // writeBuf_, writeIndex_
    file: Option<string>,           // the file behind fileFd_, None when it is -1
    offset: nat, remaining: nat,    // fileOffset_, fileRemaining_
    closeAfter: bool,               // closeAfterWrite_
    watching: bool,                 // EPOLLOUT registered
    tabled: bool,                   // inserted into connections_
    open: bool,                     // not yet deleted
    sent: string)                   // every byte the kernel took, in order
  {
    predicate Valid() {
      index <= |buf| && (file.Some? ==> offset + remaining <= |file.value|)
    }

    predicate FilePending() { file.Some? && remaining > 0 }

    predicate Busy() { index < |buf| || FilePending() }

    /** What is still to be sent: the buffer's suffix, then the file's range. */
    function Pending(): string
      requires Valid()
    {
      buf[index..] + if file.Some? then file.value[offset..offset + remaining] else ""
    }

    /** Nothing pending and nothing tracked: the state between responses. */
    predicate Idle() { open && buf == "" && index == 0 && file.None? }
  }

  function Min(a: nat, b: nat): nat { if a < b then a else b }

  function TakeBuffer(s: Out, n: nat): Out
    requires s.Valid()
  {
    var k := Min(n, |s.buf| - s.index);
    s.(index := s.index + k, sent := s.sent + s.buf[s.index..s.index + k])
  }

  function TakeFile(s: Out, n: nat): Out
    requires s.Valid() && s.file.Some?
  {
    var k := Min(n, s.remaining);
    s.(offset := s.offset + k, remaining := s.remaining - k,
       sent := s.sent + s.file.value[s.offset..s.offset + k])
  }

  /** deleteConnectionCallback_: erasing from the table destroys the connection, if the
      accepting thread has already put it there. */
  function Erased(s: Out): Out { s.(open := s.open && !s.tabled) }

  /** Everything is sent: stop watching, and close if that was announced. */
  function Finish(s: Out): Out {
    var t := s.(file := None, buf := "", index := 0, watching := false);
    if s.closeAfter then Erased(t) else t
  }

  /** `writeFromBuffer` (src/Connection.cpp:394) against the kernel's answers, one per call;
      a list that ends counts as EAGAIN. */
  function Write(s: Out, calls: seq<Call>): Out
    requires s.Valid()
    decreases |calls|
  {
    if !s.Busy() then Finish(s)
    else if calls == [] || calls[0].WouldBlock? then s.(watching := true)
    else match calls[0]
      case Interrupted => Write(s, calls[1..])
      case Wrote(n) =>
        if n == 0 then Erased(s)
        else Write(if s.index < |s.buf| then TakeBuffer(s, n) else TakeFile(s, n), calls[1..])
      case _ => Erased(s)
  }

  /** `handleWrite` (src/Connection.cpp:452); a closed connection gets no events. */
  function Resume(s: Out, calls: seq<Call>): Out
    requires s.Valid()
  {
    if !s.open then s
    else if s.Busy() then Write(s, calls)
    else s.(watching := false)
  }

  /** What happens to an output that waits: an EPOLLOUT event with its kernel answers, or
      the accepting thread's insertion into the table (src/Server.cpp:49-52). */
  datatype Event = Ready(calls: seq<Call>) | Inserted

  function Happens(s: Out, event: Event): Out
    requires s.Valid()
  {
    match event
    case Ready(calls) => Resume(s, calls)
    case Inserted => s.(tabled := true)
  }

  function Resumes(s: Out, events: seq<Event>): Out
    requires s.Valid()
    decreases |events|
  {
    if events == [] then s
    else
      HappensConserves(s, events[0]);
      Resumes(Happens(s, events[0]), events[1..])
  }

  /** `sendResponse` and `sendFile` load the buffers before they write. */
  function Load(s: Out, header: string, file: Option<string>, keepAlive: bool): Out {
    match file
    case None => s.(buf := header, index := 0, closeAfter := !keepAlive)
    case Some(f) =>
      s.(buf := header, index := 0, closeAfter := !keepAlive, file := file, offset := 0, remaining := |f|)
  }

  function Payload(header: string, file: Option<string>): string {
    header + match file case None => "" case Some(f) => f
  }

  // ---- one call ----

  lemma TakeBufferConserves(s: Out, n: nat)
    requires s.Valid() && s.index < |s.buf|
    ensures var t := TakeBuffer(s, n); t.Valid() && t.sent + t.Pending() == s.sent + s.Pending()
  {
    var t := TakeBuffer(s, n);
    var file := if s.file.Some? then s.file.value[s.offset..s.offset + s.remaining] else "";
    assert s.buf[s.index..] == s.buf[s.index..t.index] + t.buf[t.index..];
    Associative(s.sent, s.buf[s.index..t.index], t.buf[t.index..], file);
  }

  lemma Associative(a: string, b: string, c: string, d: string)
    ensures (a + b) + (c + d) == a + ((b + c) + d)
  {
  }

  lemma TakeFileConserves(s: Out, n: nat)
    requires s.Valid() && s.index >= |s.buf| && s.FilePending()
    ensures var t := TakeFile(s, n); t.Valid() && t.sent + t.Pending() == s.sent + s.Pending()
  {
    var t := TakeFile(s, n);
    var f := s.file.value;
    assert f[s.offset..s.offset + s.remaining] == f[s.offset..t.offset] + f[t.offset..t.offset + t.remaining];
    assert s.buf[s.index..] == "" && t.buf[t.index..] == "";
    Associative(s.sent, f[s.offset..t.offset], "", f[t.offset..t.offset + t.remaining]);
  }

  lemma TakeConserves(s: Out, n: nat)
    requires s.Valid() && s.Busy()
    ensures var t := if s.index < |s.buf| then TakeBuffer(s, n) else TakeFile(s, n);
            t.Valid() && t.sent + t.Pending() == s.sent + s.Pending()
  {
    if s.index < |s.buf| {
      TakeBufferConserves(s, n);
    } else {
      TakeFileConserves(s, n);
    }
  }

  /** Conservation across one call, for every sequence of kernel answers. */
  lemma {:induction false} WriteConserves(s: Out, calls: seq<Call>)
    requires s.Valid()
    ensures Write(s, calls).Valid()
    ensures Write(s, calls).sent + Write(s, calls).Pending() == s.sent + s.Pending()
    decreases |calls|
  {
    hide TakeBuffer, TakeFile;
    if s.Busy() && calls != [] {
      if calls[0].Interrupted? {
        WriteConserves(s, calls[1..]);
      } else if calls[0].Wrote? && calls[0].n > 0 {
        TakeConserves(s, calls[0].n);
        WriteConserves(if s.index < |s.buf| then TakeBuffer(s, calls[0].n) else TakeFile(s, calls[0].n), calls[1..]);
      }
    } else if !s.Busy() {
      assert s.Pending() == "" && Finish(s).Pending() == "";
    }
  }

  lemma HappensConserves(s: Out, event: Event)
    requires s.Valid()
    ensures Happens(s, event).Valid()
    ensures Happens(s, event).sent + Happens(s, event).Pending() == s.sent + s.Pending()
  {
    if event.Ready? {
      WriteConserves(s, event.calls);
    }
  }

  /** No kernel answer breaks the output off. */
  predicate Quiet(calls: seq<Call>) {
    forall i :: 0 <= i < |calls| ==> !calls[i].Failed? && calls[i] != Wrote(0)
  }

  predicate QuietEvents(events: seq<Event>) {
    forall i :: 0 <= i < |events| ==> events[i].Ready? ==> Quiet(events[i].calls)
  }

  /** A call ends blocked and watched, finished and idle, closed after full delivery, or
      broken off by an error with output still pending.  `tabled`: deletions have been
      effective from the start; `watched`: so they have, or there was no error. */
  predicate Settled(s: Out, closeAfter: bool, tabled: bool, watched: bool)
    requires s.Valid()
  {
    && s.closeAfter == closeAfter && (tabled ==> s.tabled) && (s.open || s.tabled)
    && if s.Busy() then s.open && watched ==> s.watching
       else
         && !s.watching && s.Pending() == "" && s.buf == "" && s.index == 0 && s.file.None?
         && (tabled ==> s.open == !closeAfter) && (!closeAfter ==> s.open)
  }

  lemma {:induction false} WriteSettles(s: Out, calls: seq<Call>, tabled: bool, watched: bool)
    requires s.Valid() && s.open && (tabled ==> s.tabled) && (watched ==> tabled || Quiet(calls))
    ensures Write(s, calls).Valid() && Settled(Write(s, calls), s.closeAfter, tabled, watched)
    ensures Write(s, calls).tabled == s.tabled
    decreases |calls|
  {
    hide TakeBuffer, TakeFile, Finish, Erased, Settled;
    StopSettles(s, tabled, watched);
    if s.Busy() && calls != [] {
      if calls[0].Interrupted? {
        WriteSettles(s, calls[1..], tabled, watched);
      } else if calls[0].Wrote? && calls[0].n > 0 {
        var t := if s.index < |s.buf| then TakeBuffer(s, calls[0].n) else TakeFile(s, calls[0].n);
        TakeConserves(s, calls[0].n);
        TakeKeeps(s, calls[0].n);
        WriteSettles(t, calls[1..], tabled, watched);
      }
    }
  }

  lemma TakeKeeps(s: Out, n: nat)
    requires s.Valid() && s.Busy()
    ensures var t := if s.index < |s.buf| then TakeBuffer(s, n) else TakeFile(s, n);
            t.open == s.open && t.tabled == s.tabled && t.closeAfter == s.closeAfter
  {
  }

  /** The three ways a call can stop. */
  lemma StopSettles(s: Out, tabled: bool, watched: bool)
    requires s.Valid() && s.open && (tabled ==> s.tabled)
    ensures !s.Busy() ==>
              Finish(s).Valid() && Settled(Finish(s), s.closeAfter, tabled, watched) && Finish(s).tabled == s.tabled
    ensures s.Busy() ==> Settled(s.(watching := true), s.closeAfter, tabled, watched)
    ensures s.Busy() && (watched ==> tabled) ==>
              Erased(s).Valid() && Settled(Erased(s), s.closeAfter, tabled, watched) && Erased(s).tabled == s.tabled
  {
  }

  // ---- whole deliveries ----

  lemma {:induction false} ResumesKeep(s: Out, events: seq<Event>, tabled: bool, watched: bool)
    requires s.Valid() && Settled(s, s.closeAfter, tabled, watched)
    requires watched ==> tabled || QuietEvents(events)
    ensures var t := Resumes(s, events);
            && t.Valid() && Settled(t, s.closeAfter, tabled, watched) && t.sent + t.Pending() == s.sent + s.Pending()
            && t.tabled == (s.tabled || Inserted in events)
    decreases |events|
  {
    if events != [] {
      var u := Happens(s, events[0]);
      HappensConserves(s, events[0]);
      EventSettles(s, events[0], tabled, watched);
      ResumesKeep(u, events[1..], tabled, watched);
    }
  }

  lemma EventSettles(s: Out, event: Event, tabled: bool, watched: bool)
    requires s.Valid() && Settled(s, s.closeAfter, tabled, watched)
    requires watched ==> tabled || QuietEvents([event])
    ensures var u := Happens(s, event);
            u.Valid() && Settled(u, s.closeAfter, tabled, watched) && u.tabled == (s.tabled || event == Inserted)
  {
    HappensConserves(s, event);
    if event.Ready? && s.open && s.Busy() {
      assert watched && !tabled ==> Quiet([event][0].calls);
      WriteSettles(s, event.calls, tabled, watched);
    }
  }

  function Delivery(s: Out, header: string, file: Option<string>, keepAlive: bool,
                    first: seq<Call>, events: seq<Event>): Out
    requires s.Idle()
  {
    var l := Load(s, header, file, keepAlive);
    WriteConserves(l, first);
    Resumes(Write(l, first), events)
  }

  /** Output conservation over a whole delivery: from an idle state, whatever the kernel
      answers and however many EPOLLOUT events it takes, the bytes sent followed by the
      bytes pending are header and body; a delivery with nothing pending has sent exactly
      them.  For a connection in the table it leaves the connection open if and only if
      keep-alive was asked for; one not in the table by then is still open.  A delivery
      that is pending and open is watched for EPOLLOUT, unless an error broke it off before
      the connection was in the table. */
  lemma DeliveryConserves(s: Out, header: string, file: Option<string>, keepAlive: bool,
                          first: seq<Call>, events: seq<Event>)
    requires s.Idle()
    ensures var t := Delivery(s, header, file, keepAlive, first, events);
            && t.Valid() && t.tabled == (s.tabled || Inserted in events)
            && t.sent + t.Pending() == s.sent + Payload(header, file)
            && (!t.Busy() ==> t.sent == s.sent + Payload(header, file) && !t.watching)
            && (!t.Busy() && s.tabled ==> t.open == keepAlive)
            && (!t.tabled ==> t.open)
            && (!t.Busy() && (keepAlive || !t.tabled) ==> t.Idle())
            && (t.Busy() && t.open && (s.tabled || (Quiet(first) && QuietEvents(events))) ==> t.watching)
  {
    var l := Load(s, header, file, keepAlive);
    assert l.Pending() == Payload(header, file);
    var watched := s.tabled || (Quiet(first) && QuietEvents(events));
    WriteConserves(l, first);
    WriteSettles(l, first, s.tabled, watched);
    ResumesKeep(Write(l, first), events, s.tabled, watched);
    var t := Delivery(s, header, file, keepAlive, first, events);
    if !t.Busy() {
      assert t.sent + "" == t.sent;
    }
  }

  /** When the insertion falls into the delivery: a complete delivery leaves the connection
      open if and only if keep-alive was asked for, or it was already complete before the
      insertion, so that the announced close found no entry. */
  lemma InsertDecidesClose(s: Out, header: string, file: Option<string>, keepAlive: bool,
                           first: seq<Call>, before: seq<Event>, after: seq<Event>)
    requires s.Idle() && !s.tabled && Inserted !in before
    requires !Delivery(s, header, file, keepAlive, first, before + [Inserted] + after).Busy()
    ensures Delivery(s, header, file, keepAlive, first, before + [Inserted] + after).open
            <==> keepAlive || !Delivery(s, header, file, keepAlive, first, before).Busy()
  {
    var l := Load(s, header, file, keepAlive);
    WriteConserves(l, first);
    WriteSettles(l, first, false, false);
    var w := Write(l, first);
    ResumesKeep(w, before, false, false);
    var u := Resumes(w, before);
    assert before + [Inserted] + after == before + ([Inserted] + after);
    ResumesCompose(w, before, [Inserted] + after);
    assert ([Inserted] + after)[1..] == after;
    var v := u.(tabled := true);
    assert Resumes(u, [Inserted] + after) == Resumes(v, after);
    if u.Busy() {
      ResumesKeep(v, after, true, false);
    } else {
      IdleStays(v, after);
    }
  }

  lemma {:induction false} ResumesCompose(s: Out, a: seq<Event>, b: seq<Event>)
    requires s.Valid()
    ensures Resumes(s, a).Valid() && Resumes(s, a + b) == Resumes(Resumes(s, a), b)
    decreases |a|
  {
    if a == [] {
      assert a + b == b;
    } else {
      HappensConserves(s, a[0]);
      assert (a + b)[0] == a[0] && (a + b)[1..] == a[1..] + b;
      ResumesCompose(Happens(s, a[0]), a[1..], b);
    }
  }

  lemma {:induction false} IdleStays(s: Out, events: seq<Event>)
    requires s.Valid() && !s.Busy()
    ensures Resumes(s, events).Valid() && Resumes(s, events).open == s.open && !Resumes(s, events).Busy()
    decreases |events|
  {
    if events != [] {
      IdleStays(Happens(s, events[0]), events[1..]);
    }
  }

  /** The close of a response that is out before the insertion is never carried out. */
  lemma EarlyCloseIsLost(s: Out, header: string, first: seq<Call>)
    requires s.Idle() && !s.tabled && !Write(Load(s, header, None, false), first).Busy()
    ensures var t := Delivery(s, header, None, false, first, [Inserted]);
            t.open && t.tabled && t.closeAfter && !t.Busy() && t.sent == s.sent + header
  {
    DeliveryConserves(s, header, None, false, first, []);
    WriteSettles(Load(s, header, None, false), first, false, false);
    ResumesCompose(Write(Load(s, header, None, false), first), [], [Inserted]);
    assert [] + [Inserted] == [Inserted];
    assert Payload(header, None) == header;
  }

  /** So the peer sees the same bytes however the kernel sliced them. */
  lemma DeliveriesAgree(s: Out, header: string, file: Option<string>, keepAlive: bool,
                        first1: seq<Call>, events1: seq<Event>, first2: seq<Call>, events2: seq<Event>)
    requires s.Idle()
    requires !Delivery(s, header, file, keepAlive, first1, events1).Busy()
    requires !Delivery(s, header, file, keepAlive, first2, events2).Busy()
    ensures Delivery(s, header, file, keepAlive, first1, events1).sent
         == Delivery(s, header, file, keepAlive, first2, events2).sent
  {
    DeliveryConserves(s, header, file, keepAlive, first1, events1);
    DeliveryConserves(s, header, file, keepAlive, first2, events2);
  }

  /** The header block `sendFile` prints in front of a file of that size. */
  function FileHeader(status: int, contentType: string, size: nat, keepAlive: bool): string {
    "HTTP/1.1 " + Signed(status) + " OK\r\n" +
    "Content-Type: " + contentType + "\r\n" +
    "Content-Length: " + Decimal(size) + "\r\n" +
    "Connection: " + ConnectionValue(keepAlive) + "\r\n\r\n"
  }

  /** A file sent with status 200 is byte for byte the response that a string of the same
      contents would be, so it frames itself in the same way. */
  lemma FileIsPlainResponse(contentType: string, contents: string, keepAlive: bool)
    ensures Payload(FileHeader(200, contentType, |contents|, keepAlive), Some(contents))
         == BuildHttpResponse(200, contentType, contents, keepAlive)
  {
    var p := "HTTP/1.1 " + Signed(200);
    assert " " + "OK" + "\r\n" == " OK\r\n";
    assert p + " " + "OK" + "\r\n" == p + " OK\r\n";
  }

  // ---- progress ----

  /** What the loop asks the kernel to take. */
  function Asked(s: Out): nat
    requires s.Valid()
  {
    if s.index < |s.buf| then |s.buf| - s.index else s.remaining
  }

  lemma BufferAmount(s: Out, n: nat)
    requires s.Valid() && s.index < |s.buf|
    ensures var k := if n < |s.buf| - s.index then n else |s.buf| - s.index;
            k <= |s.Pending()| && TakeBuffer(s, n).sent == s.sent + s.Pending()[..k]
  {
    var k := if n < |s.buf| - s.index then n else |s.buf| - s.index;
    Front(s.buf[s.index..], if s.file.Some? then s.file.value[s.offset..s.offset + s.remaining] else "", k);
    assert s.buf[s.index..][..k] == s.buf[s.index..s.index + k];
  }

  lemma FileAmount(s: Out, n: nat)
    requires s.Valid() && s.index >= |s.buf| && s.FilePending()
    ensures var k := if n < s.remaining then n else s.remaining;
            k <= |s.Pending()| && TakeFile(s, n).sent == s.sent + s.Pending()[..k]
  {
    hide Out.Pending;
    PendingFile(s);
    var k := if n < s.remaining then n else s.remaining;
    assert s.file.value[s.offset..s.offset + s.remaining][..k] == s.file.value[s.offset..s.offset + k];
  }

  lemma PendingFile(s: Out)
    requires s.Valid() && s.index >= |s.buf| && s.file.Some?
    ensures s.Pending() == s.file.value[s.offset..s.offset + s.remaining]
  {
    assert s.buf[s.index..] == "";
  }

  lemma Front(a: string, b: string, k: nat)
    requires k <= |a|
    ensures (a + b)[..k] == a[..k]
  {
  }

  lemma TakeAmount(s: Out, n: nat)
    requires s.Valid() && s.Busy()
    ensures var k := if n < Asked(s) then n else Asked(s);
            var t := if s.index < |s.buf| then TakeBuffer(s, n) else TakeFile(s, n);
            k <= |s.Pending()| && t.Valid() && t.sent == s.sent + s.Pending()[..k]
  {
    hide TakeBuffer, TakeFile, Out.Pending;
    TakeConserves(s, n);
    if s.index < |s.buf| {
      BufferAmount(s, n);
    } else {
      FileAmount(s, n);
    }
  }

  /** How much one call takes: what the kernel offers, and never more than was asked for. */
  lemma WriteAmount(s: Out, n: nat)
    requires s.Valid() && s.Busy() && n > 0
    ensures var k := if n < Asked(s) then n else Asked(s);
            var t := Write(s, [Wrote(n)]);
            && t.Valid() && 0 < k <= |s.Pending()|
            && t.sent == s.sent + s.Pending()[..k] && t.Pending() == s.Pending()[k..]
  {
    hide TakeBuffer, TakeFile, Out.Pending;
    var u := if s.index < |s.buf| then TakeBuffer(s, n) else TakeFile(s, n);
    TakeAmount(s, n);
    assert [Wrote(n)][1..] == [];
    assert Write(s, [Wrote(n)]).sent == u.sent;
    WriteConserves(s, [Wrote(n)]);
    Remainder(s.sent, s.Pending(), Write(s, [Wrote(n)]).Pending(), if n < Asked(s) then n else Asked(s));
  }

  lemma Remainder(a: string, b: string, c: string, k: nat)
    requires k <= |b| && a + b[..k] + c == a + b
    ensures c == b[k..]
  {
    assert (a + b)[|a| + k..] == b[k..];
    assert (a + b[..k] + c)[|a| + k..] == c;
  }

  /** EINTR is retried: it changes nothing, wherever it comes. */
  lemma {:induction false} InterruptedIsNothing(s: Out, a: seq<Call>, b: seq<Call>)
    requires s.Valid()
    ensures Write(s, a + [Call.Interrupted] + b) == Write(s, a + b)
    decreases |a|
  {
    hide TakeBuffer, TakeFile, Finish, Erased;
    var all := a + [Call.Interrupted] + b;
    if a == [] {
      assert all[1..] == b && a + b == b;
    } else {
      assert all[0] == a[0] && all[1..] == a[1..] + [Call.Interrupted] + b;
      assert (a + b)[0] == a[0] && (a + b)[1..] == a[1..] + b;
      if s.Busy() && a[0].Interrupted? {
        InterruptedIsNothing(s, a[1..], b);
      } else if s.Busy() && a[0].Wrote? && a[0].n > 0 {
        TakeConserves(s, a[0].n);
        InterruptedIsNothing(if s.index < |s.buf| then TakeBuffer(s, a[0].n) else TakeFile(s, a[0].n), a[1..], b);
      }
    }
  }

  /** An error, or a call that takes nothing, ends a connection that is in the table. */
  lemma ErrorCloses(s: Out, calls: seq<Call>)
    requires s.Valid() && s.Busy() && s.tabled && calls != [] && (calls[0].Failed? || calls[0] == Wrote(0))
    ensures var t := Write(s, calls); !t.open && t.Valid() && t.sent == s.sent && t.Pending() == s.Pending()
  {
  }

  /** An EPOLLOUT event with nothing to send ends the watch for it, and nothing else. */
  lemma IdleUnwatches(s: Out, calls: seq<Call>)
    requires s.Valid() && s.open && !s.Busy()
    ensures var t := Happens(s, Ready(calls)); !t.watching && t == s.(watching := t.watching)
  {
  }

  predicate AllTake(calls: seq<Call>) { forall i :: 0 <= i < |calls| ==> calls[i].Wrote? && calls[i].n > 0 }

  /** Every call that takes something brings the end at least a byte nearer. */
  lemma {:induction false} WriteProgresses(s: Out, calls: seq<Call>)
    requires s.Valid() && AllTake(calls)
    ensures var t := Write(s, calls);
            && t.Valid()
            && (t.Busy() ==> t.open == s.open && 0 < |t.Pending()| && |t.Pending()| + |calls| <= |s.Pending()|)
    decreases |calls|
  {
    hide TakeBuffer, TakeFile;
    WriteConserves(s, calls);
    if s.Busy() && calls != [] {
      var u := if s.index < |s.buf| then TakeBuffer(s, calls[0].n) else TakeFile(s, calls[0].n);
      TakeConserves(s, calls[0].n);
      TakeShrinks(s, calls[0].n);
      WriteProgresses(u, calls[1..]);
    }
  }

  lemma TakeShrinks(s: Out, n: nat)
    requires s.Valid() && s.Busy() && n > 0
    ensures var t := if s.index < |s.buf| then TakeBuffer(s, n) else TakeFile(s, n);
            t.Valid() && t.open == s.open && |t.Pending()| < |s.Pending()|
  {
    TakeConserves(s, n);
  }

  predicate Takes(event: Event) { event.Ready? && event.calls != [] && AllTake(event.calls) }

  lemma {:induction false} ResumesFinish(s: Out, events: seq<Event>)
    requires s.Valid() && (s.Busy() ==> s.open && |s.Pending()| <= |events|)
    requires forall i :: 0 <= i < |events| ==> Takes(events[i])
    ensures Resumes(s, events).Valid() && !Resumes(s, events).Busy()
    decreases |events|
  {
    hide Write;
    if !s.Busy() {
      IdleStays(s, events);
    } else {
      assert s.Pending() != "";
      WriteProgresses(s, events[0].calls);
      ResumesFinish(Happens(s, events[0]), events[1..]);
    }
  }

  /** A delivery ends: once there have been as many EPOLLOUT events as there are bytes, each
      of them letting at least one byte through, everything is sent, in order and whole. */
  lemma DeliveryCompletes(s: Out, header: string, file: Option<string>, keepAlive: bool,
                          first: seq<Call>, events: seq<Event>)
    requires s.Idle() && AllTake(first) && |Payload(header, file)| <= |events|
    requires forall i :: 0 <= i < |events| ==> Takes(events[i])
    ensures var t := Delivery(s, header, file, keepAlive, first, events);
            !t.Busy() && t.sent == s.sent + Payload(header, file)
  {
    var l := Load(s, header, file, keepAlive);
    assert l.Pending() == Payload(header, file);
    WriteProgresses(l, first);
    WriteConserves(l, first);
    ResumesFinish(Write(l, first), events);
    DeliveryConserves(s, header, file, keepAlive, first, events);
  }

  // ---- what the peer makes of it ----

  /** A response to send, its body as a string or as a file, and what the kernel answers
      meanwhile.  Files are sent with status 200 only (src/Connection.cpp:834). */
  datatype Sending = Sending(response: Response, fromFile: bool, first: seq<Call>, events: seq<Event>) {
    predicate Valid() { fromFile ==> response.status == 200 }

    function Header(): string {
      if fromFile then FileHeader(response.status, response.contentType, |response.body|, response.keepAlive)
      else response.Text()
    }

    function File(): Option<string> { if fromFile then Some(response.body) else None }
  }

  lemma PayloadIsText(x: Sending)
    requires x.Valid()
    ensures Payload(x.Header(), x.File()) == x.response.Text()
  {
    if x.fromFile {
      FileIsPlainResponse(x.response.contentType, x.response.body, x.response.keepAlive);
    } else {
      assert x.response.Text() + "" == x.response.Text();
    }
  }

  function Sent(s: Out, x: Sending): Out
    requires s.Idle()
  {
    Delivery(s, x.Header(), x.File(), x.response.keepAlive, x.first, x.events)
  }

  function Responses(todo: seq<Sending>): seq<Response> {
    if todo == [] then [] else [todo[0].response] + Responses(todo[1..])
  }

  /** One response after the other, each sent completely from an idle state. */
  predicate Delivers(s: Out, todo: seq<Sending>, t: Out)
    decreases |todo|
  {
    if todo == [] then s == t
    else
      && s.Idle() && todo[0].Valid()
      && !Sent(s, todo[0]).Busy() && Delivers(Sent(s, todo[0]), todo[1..], t)
  }

  lemma {:induction false} DeliversTexts(s: Out, todo: seq<Sending>, t: Out)
    requires Delivers(s, todo, t)
    ensures t.sent == s.sent + Flatten(Texts(Responses(todo)))
    decreases |todo|
  {
    hide Delivery, BuildHttpResponse;
    if todo == [] {
      assert s.sent + "" == s.sent;
    } else {
      var x, rest := todo[0], Flatten(Texts(Responses(todo[1..])));
      DeliveryConserves(s, x.Header(), x.File(), x.response.keepAlive, x.first, x.events);
      PayloadIsText(x);
      DeliversTexts(Sent(s, x), todo[1..], t);
      assert Responses(todo)[1..] == Responses(todo[1..]);
      assert Texts(Responses(todo))[1..] == Texts(Responses(todo[1..]));
      Glue(s.sent, x.response.Text(), rest);
    }
  }

  /** End to end: whatever the kernel does to each write, a peer that cuts the bytes it
      received with the server's own framing gets exactly the responses that were sent, in
      order, with nothing left over. */
  lemma {:induction false} PeerRecoversResponses(lim: Limits, s: Out, todo: seq<Sending>, t: Out)
    requires s.sent == "" && Delivers(s, todo, t)
    requires forall i :: 0 <= i < |todo| ==> todo[i].response.Within(lim)
    ensures CutAll(lim, t.sent) == Outcome(Framed(Responses(todo)), "")
  {
    hide CutAll, Delivers;
    DeliversTexts(s, todo, t);
    assert "" + Flatten(Texts(Responses(todo))) == Flatten(Texts(Responses(todo)));
    ResponsesWithin(lim, todo);
    ResponsesFrameThemselves(lim, Responses(todo));
  }

  lemma {:induction false} ResponsesWithin(lim: Limits, todo: seq<Sending>)
    requires forall i :: 0 <= i < |todo| ==> todo[i].response.Within(lim)
    ensures forall i :: 0 <= i < |Responses(todo)| ==> Responses(todo)[i].Within(lim)
  {
    if todo != [] {
      ResponsesWithin(lim, todo[1..]);
    }
  }

  /** The state in which the i-th response is sent. */
  function Before(s: Out, todo: seq<Sending>, t: Out, i: nat): Out
    requires i < |todo| && Delivers(s, todo, t)
    decreases i
  {
    if i == 0 then s
    else Before(Sent(s, todo[0]), todo[1..], t, i - 1)
  }

  /** Nothing can be sent after a response that closes a connection in the table: of all the
      responses sent on it only the last can be one. */
  lemma {:induction false} ClosingIsLast(s: Out, todo: seq<Sending>, t: Out, i: nat)
    requires Delivers(s, todo, t) && i < |todo| - 1
    ensures todo[i].response.keepAlive || !Before(s, todo, t, i).tabled
    ensures s.tabled ==> Before(s, todo, t, i).tabled
    decreases i
  {
    hide BuildHttpResponse;
    var x := todo[0];
    DeliveryConserves(s, x.Header(), x.File(), x.response.keepAlive, x.first, x.events);
    if i > 0 {
      ClosingIsLast(Sent(s, x), todo[1..], t, i - 1);
    }
  }

  /** What the next kernel answer leads to. */
  lemma WriteNext(s: Out, calls: seq<Call>, k: nat)
    requires s.Valid() && s.Busy() && k <= |calls|
    ensures k == |calls| || calls[k].WouldBlock? ==> Write(s, calls[k..]) == s.(watching := true)
    ensures k < |calls| && (calls[k].Failed? || calls[k] == Wrote(0)) ==> Write(s, calls[k..]) == Erased(s)
    ensures k < |calls| && calls[k].Interrupted? ==> Write(s, calls[k..]) == Write(s, calls[k + 1..])
    ensures k < |calls| && calls[k].Wrote? && calls[k].n > 0 ==>
              var t := if s.index < |s.buf| then TakeBuffer(s, calls[k].n) else TakeFile(s, calls[k].n);
              t.Valid() && Write(s, calls[k..]) == Write(t, calls[k + 1..])
  {
    hide TakeBuffer, TakeFile;
    if k < |calls| {
      assert calls[k..][1..] == calls[k + 1..];
      if calls[k].Wrote? && calls[k].n > 0 {
        TakeConserves(s, calls[k].n);
      }
    }
  }

  // ---- the connection object ----

  class Connection {
    var writeBuf: string
    var writeIndex: nat
    var file: Option<string>
    var fileOffset: nat
    var fileRemaining: nat
    var closeAfterWrite: bool
    var watching: bool
    var tabled: bool
    var open: bool
    var sent: string

    constructor ()
      ensures State().Idle() && sent == "" && !watching && !tabled
    {
      writeBuf, writeIndex, file, fileOffset, fileRemaining := "", 0, None, 0, 0;
      closeAfterWrite, watching, tabled, open, sent := false, false, false, true, "";
    }

    function State(): Out
      reads this
    {
      Out(writeBuf, writeIndex, file, fileOffset, fileRemaining, closeAfterWrite, watching, tabled, open, sent)
    }

    /** `connections_[fd] = conn`, on the accepting thread. */
    method Insert()
      requires State().Valid()
      modifies this
      ensures State() == Happens(old(State()), Inserted)
    {
      tabled := true;
    }

    /** `connections_.erase(fd)`. */
    method Delete()
      modifies this
      ensures State() == Erased(old(State()))
    {
      if tabled {
        open := false;
      }
    }

    /** The `write` loop (src/Connection.cpp:398-415); `done` when the buffer is empty. */
    method DrainBuffer(calls: seq<Call>) returns (k: nat, done: bool)
      requires State().Valid()
      modifies this
      ensures k <= |calls| && State().Valid()
      ensures done ==> writeIndex >= |writeBuf| && Write(State(), calls[k..]) == Write(old(State()), calls)
      ensures !done ==> State() == Write(old(State()), calls)
    {
      hide Write;
      k := 0;
      assert calls[0..] == calls;
      while writeIndex < |writeBuf|
        invariant k <= |calls| && State().Valid()
        invariant Write(State(), calls[k..]) == Write(old(State()), calls)
        decreases |calls| - k
      {
        WriteNext(State(), calls, k);
        if k < |calls| && calls[k].Wrote? && calls[k].n > 0 {
          var take := Min(calls[k].n, |writeBuf| - writeIndex);
          sent := sent + writeBuf[writeIndex..writeIndex + take];
          writeIndex := writeIndex + take;
        } else if k == |calls| || calls[k].WouldBlock? {
          watching := true;
          return k, false;
        } else if !calls[k].Interrupted? {
          Delete();
          return k, false;
        }
        k := k + 1;
      }
      return k, true;
    }

    /** The `sendfile` loop (src/Connection.cpp:418-435). */
    method DrainFile(calls: seq<Call>) returns (k: nat, done: bool)
      requires State().Valid() && writeIndex >= |writeBuf|
      modifies this
      ensures k <= |calls| && State().Valid()
      ensures done ==> !State().Busy() && Write(State(), calls[k..]) == Write(old(State()), calls)
      ensures !done ==> State() == Write(old(State()), calls)
    {
      hide Write;
      k := 0;
      assert calls[0..] == calls;
      while file.Some? && fileRemaining > 0
        invariant k <= |calls| && State().Valid() && writeIndex >= |writeBuf|
        invariant Write(State(), calls[k..]) == Write(old(State()), calls)
        decreases |calls| - k
      {
        WriteNext(State(), calls, k);
        if k < |calls| && calls[k].Wrote? && calls[k].n > 0 {
          var take := Min(calls[k].n, fileRemaining);
          sent := sent + file.value[fileOffset..fileOffset + take];
          fileOffset := fileOffset + take;
          fileRemaining := fileRemaining - take;
        } else if k == |calls| || calls[k].WouldBlock? {
          watching := true;
          return k, false;
        } else if !calls[k].Interrupted? {
          Delete();
          return k, false;
        }
        k := k + 1;
      }
      return k, true;
    }

    /** src/Connection.cpp:394. */
    method WriteFromBuffer(calls: seq<Call>)
      requires State().Valid()
      modifies this
      ensures State() == Write(old(State()), calls)
    {
      var k, done := DrainBuffer(calls);
      if !done {
        return;
      }
      var _, done' := DrainFile(calls[k..]);
      if !done' {
        return;
      }
      file := None;
      writeBuf := "";
      writeIndex := 0;
      watching := false;
      if closeAfterWrite {
        Delete();
      }
    }

    method HandleWrite(calls: seq<Call>)
      requires State().Valid() && open
      modifies this
      ensures State() == Resume(old(State()), calls)
    {
      if writeIndex < |writeBuf| || (file.Some? && fileRemaining > 0) {
        WriteFromBuffer(calls);
      } else {
        watching := false;
      }
    }

    method SendResponse(status: int, contentType: string, body: string, keepAlive: bool, calls: seq<Call>)
      requires State().Valid() && open
      modifies this
      ensures var text := BuildHttpResponse(status, contentType, body, keepAlive);
              State() == Write(Load(old(State()), text, None, keepAlive), calls)
    {
      writeBuf := BuildHttpResponse(status, contentType, body, keepAlive);
      writeIndex := 0;
      closeAfterWrite := !keepAlive;
      WriteFromBuffer(calls);
    }

    /** `contents` is the cached static file, None if it could not be opened. */
    method SendFile(status: int, contentType: string, contents: Option<string>, keepAlive: bool, calls: seq<Call>)
      returns (ok: bool)
      requires State().Valid() && open
      modifies this
      ensures ok == contents.Some?
      ensures !ok ==> State() == old(State())
      ensures ok ==>
                var header := FileHeader(status, contentType, |contents.value|, keepAlive);
                State() == Write(Load(old(State()), header, contents, keepAlive), calls)
    {
      if contents.None? {
        return false;
      }
      writeBuf := FileHeader(status, contentType, |contents.value|, keepAlive);
      writeIndex := 0;
      closeAfterWrite := !keepAlive;
      file := contents;
      fileOffset := 0;
      fileRemaining := |contents.value|;
      WriteFromBuffer(calls);
      return true;
    }
  }
}
