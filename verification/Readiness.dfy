/** Edge-triggered readiness: `Channel`, `Epoll` and one connection's handlers against the
    kernel's ready flag.  `handleEvent` drops a read edge whenever EPOLLOUT is reported too;
    the machine below shows why no edge is lost all the same. */
module Readiness {
  import opened Wrappers

  datatype Flag = In | Pri | Out | Err | Hup | RdHup | Et

  /** The kernel's record of a registered descriptor. */
  datatype Item = Item(mask: set<Flag>, ready: bool)

  /** EPOLLERR and EPOLLHUP are reported whether asked for or not. */
  function Heard(mask: set<Flag>, poll: set<Flag>): set<Flag> { poll * (mask + {Err, Hup}) }

  /** EPOLL_CTL_MOD (and ADD) poll the descriptor again and queue it if anything is there. */
  function Repolled(ready: bool, mask: set<Flag>, poll: set<Flag>): Item {
    Item(mask, ready || Heard(mask, poll) != {})
  }

  /** A descriptor's item after `updateChannel`.  A channel already registered is modified, if
      the kernel has an item for it; a new one is added, or takes over the item that a
      recycled descriptor left behind.  `refused`: the kernel turned the ADD down for another
      reason, or the item was gone before it could be taken over; that is only logged. */
  function Kept(stale: Option<Item>, registered: bool, events: set<Flag>, poll: set<Flag>, refused: bool):
    Option<Item>
  {
    if stale.Some? && (registered || !refused) then Some(Repolled(stale.value.ready, events, poll))
    else if registered || refused then None
    else Some(Repolled(false, events, poll))
  }

  datatype Callback = WriteCallback | ReadCallback | NoCallback

  /** src/Channel.cpp:40: the write callback wins and the read edge is dropped. */
  function Route(revents: set<Flag>): Callback {
    if Out in revents then WriteCallback
    else if revents * {In, Pri, RdHup, Hup, Err} != {} then ReadCallback
    else NoCallback
  }

  const READ_FLAGS: set<Flag> := {In, Pri, RdHup, Et}

  /** Channel::events_ after enableReadingET, enableWriting and disableWriting. */
  function ReadWanted(events: set<Flag>): set<Flag> { events + READ_FLAGS }

  function WriteWanted(events: set<Flag>): set<Flag> { events + {Out} }

  function WriteUnwanted(events: set<Flag>): set<Flag> { events - {Out} }

  // ---- Channel and Epoll ----

  class Channel {
    const fd: int
    var events: set<Flag>
    var revents: set<Flag>
    var inEpoll: bool

    constructor (fd: int)
      ensures this.fd == fd && events == {} && revents == {} && !inEpoll
    {
      this.fd := fd;
      events, revents, inEpoll := {}, {}, false;
    }

    method EnableReadingET(ep: Epoll, poll: set<Flag>, refused: bool)
      modifies this, ep
      ensures events == ReadWanted(old(events)) && inEpoll
      ensures ep.items == ep.Updated(old(ep.items), fd, old(inEpoll), events, poll, refused)
    {
      events := events + {In, Pri, RdHup, Et};
      ep.UpdateChannel(this, poll, refused);
    }

    method EnableWriting(ep: Epoll, poll: set<Flag>, refused: bool)
      modifies this, ep
      ensures events == WriteWanted(old(events)) && inEpoll
      ensures ep.items == ep.Updated(old(ep.items), fd, old(inEpoll), events, poll, refused)
    {
      events := events + {Out};
      ep.UpdateChannel(this, poll, refused);
    }

    method DisableWriting(ep: Epoll, poll: set<Flag>, refused: bool)
      modifies this, ep
      ensures events == WriteUnwanted(old(events)) && inEpoll
      ensures ep.items == ep.Updated(old(ep.items), fd, old(inEpoll), events, poll, refused)
    {
      events := events - {Out};
      ep.UpdateChannel(this, poll, refused);
    }

    /** The callback that runs. */
    method HandleEvent() returns (callback: Callback)
      ensures callback == Route(revents)
    {
      if Out in revents {
        return WriteCallback;
      }
      if revents * {In, Pri, RdHup, Hup, Err} != {} {
        return ReadCallback;
      }
      return NoCallback;
    }
  }

  class Epoll {
    var items: map<int, Item>  // the kernel's interest list

    /** The interest list after `updateChannel`. */
    static function Updated(items: map<int, Item>, fd: int, registered: bool,
                            events: set<Flag>, poll: set<Flag>, refused: bool): map<int, Item>
    {
      var stale := if fd in items then Some(items[fd]) else None;
      match Kept(stale, registered, events, poll, refused)
      case Some(item) => items[fd := item]
      case None => items - {fd}
    }

    /** src/Epoll.cpp:48. */
    method UpdateChannel(channel: Channel, poll: set<Flag>, refused: bool)
      modifies this, channel`inEpoll
      ensures channel.inEpoll
      ensures items == Updated(old(items), channel.fd, old(channel.inEpoll), channel.events, poll, refused)
    {
      var fd := channel.fd;
      if !channel.inEpoll {
        if refused {
          items := items - {fd};
        } else if fd in items {
          items := items[fd := Repolled(items[fd].ready, channel.events, poll)];
        } else {
          items := items[fd := Repolled(false, channel.events, poll)];
        }
        channel.inEpoll := true;
      } else if fd in items {
        items := items[fd := Repolled(items[fd].ready, channel.events, poll)];
      }
    }

    /** src/Epoll.cpp:38: hand the reported events to their channels, in order. */
    method ActiveChannels(reported: seq<(Channel, set<Flag>)>) returns (active: seq<Channel>)
      requires forall i, j :: 0 <= i < j < |reported| ==> reported[i].0 != reported[j].0
      modifies set i | 0 <= i < |reported| :: reported[i].0`revents
      ensures |active| == |reported|
      ensures forall i :: 0 <= i < |reported| ==> active[i] == reported[i].0 && active[i].revents == reported[i].1
    {
      active := [];
      for i := 0 to |reported|
        invariant |active| == i
        invariant forall k :: 0 <= k < i ==> active[k] == reported[k].0 && active[k].revents == reported[k].1
      {
        reported[i].0.revents := reported[i].1;
        active := active + [reported[i].0];
      }
    }
  }

  // ---- one connection between the kernel and its reactor ----

  /** Where a send returns to: the framing loop, or the event loop. */
  datatype Next = ToFraming | ToLoop

  datatype Pc =
    | Waiting                          // registered, not being handled
    | Reported(revents: set<Flag>)     // in a batch that epoll_wait returned
    | Reading                          // in the read loop of handleMessage
    | Framing                          // in processRequests
    | Writing(next: Next)              // in writeFromBuffer
    | Watch(next: Next)                // got EAGAIN, about to call enableWriting
    | Unwatch(next: Next, close: bool) // drained, about to call disableWriting
    | Gone                             // deleted; close removed the registration

  /** What `poll` looks at.  `hup`: both directions are shut; `err`: an error is pending. */
  datatype Socket = Socket(unread: nat, eof: bool, hup: bool, err: bool, writable: bool)

  datatype Conn = Conn(
    sock: Socket,
    item: Option<Item>, events: set<Flag>,  // the registration, if there is one; Channel::events_
    pending: nat, closeAfter: bool,         // unsent output, closeAfterWrite_
    failed: bool,                           // a write of that output failed
    tabled: bool,                           // inserted into connections_
    pc: Pc)

  function Poll(sock: Socket): set<Flag> {
    (if sock.unread > 0 || sock.eof then {In} else {}) +
    (if sock.eof then {RdHup} else {}) +
    (if sock.hup then {Hup} else {}) +
    (if sock.err then {Err} else {}) +
    (if sock.writable then {Out} else {})
  }

  /** The connection is on the kernel's ready list. */
  predicate Queued(c: Conn) { c.item.Some? && c.item.value.ready }

  /** A fresh connection: the constructor has called enableReadingET, and the server has not
      yet put it into its table.  `stale` is what the descriptor's last owner left behind. */
  function Created(sock: Socket, stale: Option<Item>, refused: bool): Conn {
    var events := ReadWanted({});
    Conn(sock, Kept(stale, false, events, Poll(sock), refused), events, 0, false, false, false, Waiting)
  }

  datatype Step =
    // the kernel, at any moment
    | Arrive(n: nat)
    | PeerCloses
    | Resets                           // by the peer, or given up by the kernel
    | IdleShutdown                     // sweepIdle shut both directions down
    | SpaceOpens
    | SpaceFills                       // another thread's write took the space
    // the accepting thread
    | Insert                           // connections_[fd] = conn
    // the event loop
    | EpollWait
    | HandleEvent
    // handleMessage
    | Read(n: nat)
    | ReadFails
    | SendReply(n: nat, keepAlive: bool)
    | FramingDone
    // writeFromBuffer
    | WriteSome(n: nat, fills: bool)
    | WriteFails
    | WriteReturns                     // EAGAIN, or nothing left to write
    | UpdateEpoll                      // enableWriting or disableWriting

  predicate Enabled(c: Conn, step: Step) {
    !c.pc.Gone? &&
    match step
    case Arrive(n) => n > 0 && !c.sock.eof
    case PeerCloses => !c.sock.eof
    case Resets => true
    case IdleShutdown => c.tabled
    case SpaceOpens => !c.sock.writable
    case SpaceFills => c.sock.writable
    case Insert => !c.tabled
    case EpollWait => c.pc.Waiting? && Queued(c)
    case HandleEvent => c.pc.Reported?
    case Read(n) => c.pc.Reading? && (if c.sock.unread > 0 then 0 < n <= c.sock.unread else true)
    case ReadFails => c.pc.Reading?
    case SendReply(n, _) => c.pc.Framing? && n > 0
    case FramingDone => c.pc.Framing?
    case WriteSome(n, _) => c.pc.Writing? && 0 < n <= c.pending
    case WriteFails => c.pc.Writing? && c.pending > 0
    case WriteReturns => c.pc.Writing? && (c.pending == 0 || !c.sock.writable)
    case UpdateEpoll => c.pc.Watch? || c.pc.Unwatch?
  }

  function Return(next: Next): Pc { if next == ToFraming then Framing else Waiting }

  /** deleteConnectionCallback_: erases the table's entry, and with it the connection, if
      there is one; then the handler returns. */
  function Deleted(c: Conn, next: Next): Conn {
    c.(pc := if c.tabled then Gone else Return(next))
  }

  /** A wakeup queues the item, if there is one and its mask asks for one of the flags. */
  function Woken(item: Option<Item>, flags: set<Flag>): Option<Item> {
    match item
    case Some(i) => Some(i.(ready := i.ready || Heard(i.mask, flags) != {}))
    case None => None
  }

  function Wake(c: Conn, sock: Socket, flags: set<Flag>): Conn {
    c.(sock := sock, item := Woken(c.item, flags))
  }

  function Reset(sock: Socket): Socket { sock.(eof := true, hup := true, err := true, writable := true) }

  function Shut(sock: Socket): Socket { sock.(eof := true, hup := true, writable := true) }

  /** The channel's wish at the end of a write. */
  function Wish(c: Conn): set<Flag> {
    if c.pc.Watch? then WriteWanted(c.events) else WriteUnwanted(c.events)
  }

  /** The end of a write: the mask is updated and the kernel polls again. */
  function Updated(c: Conn): Conn {
    c.(events := Wish(c), item := Kept(c.item, true, Wish(c), Poll(c.sock), false))
  }

  function Apply(c: Conn, step: Step): Conn
    requires Enabled(c, step)
  {
    var sock := c.sock;
    match step
    case Arrive(n) => Wake(c, sock.(unread := sock.unread + n), {In})
    case PeerCloses => Wake(c, sock.(eof := true), {In, RdHup})
    case Resets => Wake(c, Reset(sock), {In, Out, RdHup, Hup, Err})
    case IdleShutdown => Wake(c, Shut(sock), {In, Out, RdHup, Hup})
    case SpaceOpens => Wake(c, sock.(writable := true), {Out})
    case SpaceFills => c.(sock := sock.(writable := false))
    case Insert => c.(tabled := true)
    case EpollWait =>
      // edge-triggered: taken off the ready list; reported if it still has something to say
      var revents := Heard(c.item.value.mask, Poll(sock));
      c.(item := Some(c.item.value.(ready := false)), pc := if revents == {} then Waiting else Reported(revents))
    case HandleEvent =>
      (match Route(c.pc.revents)
       case WriteCallback => c.(pc := if c.pending > 0 then Writing(ToLoop) else Unwatch(ToLoop, false))
       case ReadCallback => c.(pc := Reading)
       case NoCallback => c.(pc := Waiting))
    case Read(n) =>
      if sock.unread > 0 then c.(sock := sock.(unread := sock.unread - n))
      else if sock.eof then Deleted(c, ToLoop)
      else c.(pc := Framing)
    case ReadFails => Deleted(c.(sock := sock.(err := false)), ToLoop)  // the call took the error
    case SendReply(n, keepAlive) =>
      var next := if keepAlive then ToFraming else ToLoop;
      c.(pending := n, closeAfter := !keepAlive, failed := false, pc := Writing(next))
    case FramingDone => c.(pc := Waiting)
    case WriteSome(n, fills) =>
      c.(pending := c.pending - n, sock := sock.(writable := sock.writable && !fills))
    case WriteFails => Deleted(c.(failed := true, sock := sock.(err := false)), c.pc.next)
    case WriteReturns =>
      if c.pending > 0 then c.(pc := Watch(c.pc.next)) else c.(pc := Unwatch(c.pc.next, c.closeAfter))
    case UpdateEpoll =>
      if c.pc.Unwatch? && c.pc.close then Deleted(Updated(c), c.pc.next) else Updated(c).(pc := Return(c.pc.next))
  }

  // ---- deletions that come too early ----

  /** A run: states linked by enabled steps. */
  ghost predicate IsRun(states: seq<Conn>, steps: seq<Step>) {
    && |states| == |steps| + 1
    && forall i :: 0 <= i < |steps| ==> Enabled(states[i], steps[i]) && states[i + 1] == Apply(states[i], steps[i])
  }

  /** The step asks for the deletion of a connection that is not in the table yet. */
  predicate EarlyDeletion(c: Conn, step: Step) {
    && !c.tabled
    && match step
       case Read(_) => c.sock.unread == 0 && c.sock.eof
       case ReadFails => true
       case WriteFails => true
       case UpdateEpoll => c.pc.Unwatch? && c.pc.close
       case _ => false
  }

  /** Something happens that an item is queued for: a wakeup the channel asks for, or an
      update that finds something. */
  predicate Queues(c: Conn, step: Step) {
    match step
    case Arrive(_) => true
    case PeerCloses => true
    case Resets => true
    case IdleShutdown => true
    case SpaceOpens => Out in c.events
    case UpdateEpoll =>
      c.sock.unread > 0 || c.sock.eof || c.sock.hup || c.sock.err || (c.pc.Watch? && c.sock.writable)
    case _ => false
  }

  /** What the steps since the last `EpollWait` tell: nothing was queued, and a deletion came
      too early. */
  datatype Since = Since(quiet: bool, early: bool)

  function After(h: Since, c: Conn, step: Step): Since {
    if step.EpollWait? then Since(true, false)
    else Since(h.quiet && !Queues(c, step), h.early || EarlyDeletion(c, step))
  }

  function History(states: seq<Conn>, steps: seq<Step>, k: nat): Since
    requires k < |states| && |states| == |steps| + 1
  {
    if k == 0 then Since(false, false) else After(History(states, steps, k - 1), states[k - 1], steps[k - 1])
  }

  /** Since the last `EpollWait` a deletion came too early and nothing was queued. */
  predicate Stranded(states: seq<Conn>, steps: seq<Step>, k: nat)
    requires k < |states| && |states| == |steps| + 1
  {
    History(states, steps, k) == Since(true, true)
  }

  // ---- the invariant ----

  predicate HasInput(sock: Socket) { sock.unread > 0 || sock.eof }

  /** Unsent output is watched, and reported as soon as the socket takes more. */
  predicate OutputHeard(c: Conn) {
    c.pending > 0 && !c.failed ==> Out in c.events && (c.sock.writable ==> Queued(c))
  }

  predicate InputHeard(c: Conn, h: Since) {
    HasInput(c.sock) ==> Queued(c) || h == Since(true, true)
  }

  /** The mask is the channel's wish; within a handler the item is queued exactly if anything
      was queued since it was reported. */
  predicate ItemOk(c: Conn, h: Since) {
    && c.item.Some? && In in c.events && c.item.value.mask == c.events
    && (h.quiet ==> !Queued(c)) && (!c.pc.Waiting? && !h.quiet ==> Queued(c))
  }

  predicate HandlerOk(c: Conn, h: Since) {
    match c.pc
    case Waiting => InputHeard(c, h) && OutputHeard(c)
    case Framing => InputHeard(c, h) && OutputHeard(c)
    case Reported(revents) =>
      revents != {} && revents <= {In, Out, RdHup, Hup, Err} && (Out !in revents ==> OutputHeard(c))
    case Reading => OutputHeard(c)
    case Watch(_) => c.pending > 0
    case Unwatch(_, _) => c.pending == 0
    case _ => true
  }

  /** A connection the kernel has no item for waits; nobody ever handles it. */
  predicate Inv(c: Conn, h: Since) {
    c.pc.Gone? || (if c.item.None? then c.pc.Waiting? && c.pending == 0 else ItemOk(c, h) && HandlerOk(c, h))
  }

  lemma CreatedIsGood(sock: Socket, stale: Option<Item>, refused: bool)
    ensures Inv(Created(sock, stale, refused), Since(false, false))
    ensures Created(sock, stale, refused).item.None? <==> refused
  {
    if sock.unread > 0 || sock.eof {
      assert In in Heard(ReadWanted({}), Poll(sock));
    }
  }

  lemma WakeQueues(item: Item, flags: set<Flag>, f: Flag)
    requires f in flags && f in item.mask
    ensures Woken(Some(item), flags).value.ready
  {
    assert f in Heard(item.mask, flags);
  }

  lemma RepollQueues(ready: bool, events: set<Flag>, poll: set<Flag>, f: Flag)
    requires f in events + {Err, Hup} && f in poll
    ensures Repolled(ready, events, poll).ready
  {
    assert f in Heard(events, poll);
  }

  lemma NothingHeard(mask: set<Flag>, poll: set<Flag>)
    requires poll <= {Out} && (poll == {} || Out !in mask)
    ensures Heard(mask, poll) == {}
  {
  }

  predicate KernelStep(step: Step) {
    || step.Arrive? || step.PeerCloses? || step.Resets? || step.IdleShutdown?
    || step.SpaceOpens? || step.SpaceFills? || step.Insert?
  }

  lemma InputKeeps(c: Conn, h: Since, step: Step)
    requires Inv(c, h) && Enabled(c, step) && c.item.Some?
    requires step.Arrive? || step.PeerCloses? || step.Resets? || step.IdleShutdown?
    ensures Inv(Apply(c, step), After(h, c, step))
  {
    hide Heard, Poll;
    var item := c.item.value;
    match step
    case Arrive(n) => WakeQueues(item, {In}, In);
    case PeerCloses => WakeQueues(item, {In, RdHup}, In);
    case Resets => WakeQueues(item, {In, Out, RdHup, Hup, Err}, In);
    case _ => WakeQueues(item, {In, Out, RdHup, Hup}, In);
  }

  lemma SpaceKeeps(c: Conn, h: Since, step: Step)
    requires Inv(c, h) && Enabled(c, step) && c.item.Some? && (step.SpaceOpens? || step.SpaceFills? || step.Insert?)
    ensures Inv(Apply(c, step), After(h, c, step))
  {
    hide Heard, Poll;
    if step.SpaceOpens? {
      if Out in c.events {
        WakeQueues(c.item.value, {Out}, Out);
      } else {
        NothingHeard(c.item.value.mask, {Out});
      }
    }
  }

  /** Without an item only the socket and the table can change. */
  lemma UnregisteredKeeps(c: Conn, h: Since, step: Step)
    requires Inv(c, h) && Enabled(c, step) && c.item.None?
    ensures KernelStep(step)
    ensures var d := Apply(c, step); d.item.None? && d.pc.Waiting? && d.pending == 0
  {
    hide Heard, Poll;
  }

  lemma WaitKeeps(c: Conn, h: Since)
    requires Inv(c, h) && Enabled(c, EpollWait)
    ensures Inv(Apply(c, EpollWait), After(h, c, EpollWait))
  {
    hide Poll;
    PollOf(c.sock);
    var revents := Heard(c.item.value.mask, Poll(c.sock));
    if HasInput(c.sock) {
      assert In in revents;
    }
    if c.sock.writable && Out in c.events {
      assert Out in revents;
    }
  }

  lemma EventKeeps(c: Conn, h: Since)
    requires Inv(c, h) && Enabled(c, HandleEvent)
    ensures Inv(Apply(c, HandleEvent), After(h, c, HandleEvent))
  {
    hide Heard, Poll;
    RouteOf(c.pc.revents);
  }

  lemma RouteOf(revents: set<Flag>)
    requires revents != {} && revents <= {In, Out, RdHup, Hup, Err}
    ensures Route(revents) == if Out in revents then WriteCallback else ReadCallback
  {
    if Out !in revents {
      var f :| f in revents;
      assert f in revents * {In, Pri, RdHup, Hup, Err};
    }
  }

  lemma PollOf(sock: Socket)
    ensures Poll(sock) <= {In, Out, RdHup, Hup, Err}
    ensures (In in Poll(sock) <==> HasInput(sock)) && (Out in Poll(sock) <==> sock.writable)
    ensures (Hup in Poll(sock) <==> sock.hup) && (Err in Poll(sock) <==> sock.err)
    ensures !HasInput(sock) && !sock.hup && !sock.err ==> Poll(sock) <= {Out} && (sock.writable || Poll(sock) == {})
  {
  }

  /** Every write path ends here or in a deletion, and the kernel looks again. */
  lemma UpdateQueues(c: Conn)
    requires Enabled(c, UpdateEpoll) && c.item.Some? && In in c.events
    ensures Queued(Updated(c)) == (Queued(c) || Queues(c, UpdateEpoll))
  {
    hide Heard, Poll;
    PollOf(c.sock);
    var ready, poll := c.item.value.ready, Poll(c.sock);
    if HasInput(c.sock) {
      RepollQueues(ready, Wish(c), poll, In);
    } else if c.sock.hup {
      RepollQueues(ready, Wish(c), poll, Hup);
    } else if c.sock.err {
      RepollQueues(ready, Wish(c), poll, Err);
    } else if c.pc.Watch? && c.sock.writable {
      RepollQueues(ready, Wish(c), poll, Out);
    } else {
      NothingHeard(Wish(c), poll);
    }
  }

  lemma UpdateKeeps(c: Conn, h: Since)
    requires Inv(c, h) && Enabled(c, UpdateEpoll)
    ensures Inv(Apply(c, UpdateEpoll), After(h, c, UpdateEpoll))
  {
    hide Heard, Poll;
    UpdateQueues(c);
  }

  lemma ReadKeeps(c: Conn, h: Since, step: Step)
    requires Inv(c, h) && Enabled(c, step)
    requires step.Read? || step.ReadFails?
    ensures Inv(Apply(c, step), After(h, c, step))
  {
    hide Heard, Poll, Wake, Updated, Route;
  }

  lemma FrameKeeps(c: Conn, h: Since, step: Step)
    requires Inv(c, h) && Enabled(c, step) && (step.SendReply? || step.FramingDone?)
    ensures Inv(Apply(c, step), After(h, c, step))
  {
    hide Heard, Poll, Wake, Updated, Route;
  }

  lemma WriteKeeps(c: Conn, h: Since, step: Step)
    requires Inv(c, h) && Enabled(c, step)
    requires step.WriteSome? || step.WriteFails? || step.WriteReturns?
    ensures Inv(Apply(c, step), After(h, c, step))
  {
    hide Heard, Poll, Wake, Updated, Route;
  }

  lemma StepKeeps(c: Conn, h: Since, step: Step)
    requires Inv(c, h) && Enabled(c, step)
    ensures Inv(Apply(c, step), After(h, c, step))
  {
    hide Apply, After;
    if c.item.None? {
      UnregisteredKeeps(c, h, step);
    } else if step.Arrive? || step.PeerCloses? || step.Resets? || step.IdleShutdown? {
      InputKeeps(c, h, step);
    } else if KernelStep(step) {
      SpaceKeeps(c, h, step);
    } else if step.EpollWait? {
      WaitKeeps(c, h);
    } else if step.HandleEvent? {
      EventKeeps(c, h);
    } else if step.UpdateEpoll? {
      UpdateKeeps(c, h);
    } else if step.WriteSome? || step.WriteFails? || step.WriteReturns? {
      WriteKeeps(c, h, step);
    } else if step.Read? || step.ReadFails? {
      ReadKeeps(c, h, step);
    } else {
      FrameKeeps(c, h, step);
    }
  }

  // ---- no lost edge ----

  /** A run of a connection that starts on that socket. */
  ghost predicate ConnRun(states: seq<Conn>, steps: seq<Step>, sock: Socket, stale: Option<Item>, refused: bool) {
    IsRun(states, steps) && states[0] == Created(sock, stale, refused)
  }

  lemma {:induction false} RunKeeps(states: seq<Conn>, steps: seq<Step>, k: nat)
    requires IsRun(states, steps) && Inv(states[0], Since(false, false)) && k < |states|
    ensures Inv(states[k], History(states, steps, k))
    ensures states[k].item.Some? == states[0].item.Some?
  {
    hide Inv, Apply, After;
    if k > 0 {
      RunKeeps(states, steps, k - 1);
      StepKeeps(states[k - 1], History(states, steps, k - 1), steps[k - 1]);
      ItemStays(states[k - 1], steps[k - 1]);
    }
  }

  lemma ItemStays(c: Conn, step: Step)
    requires Enabled(c, step)
    ensures Apply(c, step).item.Some? == c.item.Some?
  {
    hide Heard, Poll, Route;
  }

  /** No lost edge, exactly: in every run, whenever no handler is at work on a live connection
      that has unread bytes or an end of file, its item is queued if and only if the kernel
      accepted the registration and the connection is not stranded.  Unsent output has
      EPOLLOUT registered, and the item queued as soon as the socket is writable, unless a
      write of it failed. */
  lemma NoLostEdge(states: seq<Conn>, steps: seq<Step>, k: nat, sock: Socket, stale: Option<Item>, refused: bool)
    requires ConnRun(states, steps, sock, stale, refused) && k < |states| && states[k].pc.Waiting?
    ensures var c := states[k];
            && (c.sock.unread > 0 || c.sock.eof ==> (Queued(c) <==> !refused && !Stranded(states, steps, k)))
            && (c.pending > 0 && !c.failed ==> Out in c.events && (c.sock.writable ==> Queued(c)))
  {
    CreatedIsGood(sock, stale, refused);
    RunKeeps(states, steps, k);
  }

  /** So a registered connection that is inserted before any deletion loses nothing at all. */
  lemma NoEdgeLostOnceTabled(states: seq<Conn>, steps: seq<Step>, k: nat, sock: Socket, stale: Option<Item>)
    requires ConnRun(states, steps, sock, stale, false) && k < |states| && states[k].pc.Waiting?
    requires forall i :: 0 <= i < k ==> !EarlyDeletion(states[i], steps[i])
    ensures var c := states[k];
            && (c.sock.unread > 0 || c.sock.eof ==> Queued(c))
            && (c.pending > 0 ==> Out in c.events && (c.sock.writable ==> Queued(c)))
  {
    NoLostEdge(states, steps, k, sock, stale, false);
    NeverStranded(states, steps, k);
  }

  lemma {:induction false} NeverStranded(states: seq<Conn>, steps: seq<Step>, k: nat)
    requires IsRun(states, steps) && k < |states| && !states[0].failed
    requires forall i :: 0 <= i < k ==> !EarlyDeletion(states[i], steps[i])
    ensures !History(states, steps, k).early && (states[k].failed ==> states[k].pc.Gone?)
  {
    if k > 0 {
      NeverStranded(states, steps, k - 1);
      FailureDeletes(states[k - 1], steps[k - 1]);
    }
  }

  lemma FailureDeletes(c: Conn, step: Step)
    requires Enabled(c, step) && !c.failed && !EarlyDeletion(c, step)
    ensures var d := Apply(c, step); d.failed ==> d.pc.Gone?
  {
    hide Kept, Woken, Route, Heard, Poll;
  }

  /** A waiting connection that has something to read or room to write is reported and gets a
      callback, if and only if it is registered and not stranded. */
  lemma NeverStalls(states: seq<Conn>, steps: seq<Step>, k: nat, sock: Socket, stale: Option<Item>, refused: bool)
    requires ConnRun(states, steps, sock, stale, refused) && k < |states|
    requires var c := states[k];
             c.pc.Waiting? && (HasInput(c.sock) || (c.pending > 0 && !c.failed && c.sock.writable))
    ensures Enabled(states[k], EpollWait) <==> !refused && !Stranded(states, steps, k)
    ensures Enabled(states[k], EpollWait) ==>
              var d := Apply(states[k], EpollWait);
              d.pc.Reported? && Route(d.pc.revents) != NoCallback
  {
    NoLostEdge(states, steps, k, sock, stale, refused);
    CreatedIsGood(sock, stale, refused);
    RunKeeps(states, steps, k);
    if Queued(states[k]) {
      ReportedAndRouted(states[k]);
    }
  }

  lemma ReportedAndRouted(c: Conn)
    requires Enabled(c, EpollWait) && In in c.item.value.mask
    requires HasInput(c.sock) || (c.sock.writable && Out in c.item.value.mask)
    ensures var d := Apply(c, EpollWait); d.pc.Reported? && Route(d.pc.revents) != NoCallback
  {
    hide Poll;
    PollOf(c.sock);
    var revents := Heard(c.item.value.mask, Poll(c.sock));
    assert (if HasInput(c.sock) then In else Out) in revents;
    RouteOf(revents);
  }

  // ---- the exceptions are real ----

  /** A connection whose registration was refused is never handled, in any run: it is live
      and waits, whatever arrives, and neither the idle sweep nor a reset ends it. */
  lemma RefusedForever(states: seq<Conn>, steps: seq<Step>, k: nat, sock: Socket, stale: Option<Item>)
    requires ConnRun(states, steps, sock, stale, true) && k < |states|
    ensures states[k].pc.Waiting? && !Queued(states[k])
    ensures k < |steps| ==> KernelStep(steps[k])
  {
    hide Apply, Enabled;
    CreatedIsGood(sock, stale, true);
    RunKeeps(states, steps, k);
    NeverGone(states, steps, k);
    if k < |steps| {
      UnregisteredKeeps(states[k], History(states, steps, k), steps[k]);
    }
  }

  lemma {:induction false} NeverGone(states: seq<Conn>, steps: seq<Step>, k: nat)
    requires IsRun(states, steps) && k < |states|
    requires Inv(states[0], Since(false, false)) && states[0].item.None? && states[0].pc.Waiting?
    ensures states[k].pc.Waiting?
  {
    if k > 0 {
      hide Apply, Enabled;
      NeverGone(states, steps, k - 1);
      RunKeeps(states, steps, k - 1);
      UnregisteredKeeps(states[k - 1], History(states, steps, k - 1), steps[k - 1]);
    }
  }

  /** One step between two given states. */
  ghost predicate Takes(c: Conn, step: Step, d: Conn) { Enabled(c, step) && d == Apply(c, step) }

  lemma RunOf(states: seq<Conn>, steps: seq<Step>)
    requires |states| == |steps| + 1
    requires forall i :: 0 <= i < |steps| ==> Takes(states[i], steps[i], states[i + 1])
    ensures IsRun(states, steps)
  {
    hide Apply, Enabled;
    forall i | 0 <= i < |steps| ensures Enabled(states[i], steps[i]) && states[i + 1] == Apply(states[i], steps[i]) {
      assert Takes(states[i], steps[i], states[i + 1]);
    }
  }

  /** Bytes arrive for such a connection, and the sweep shuts it down, and nobody knows. */
  lemma RefusedLosesEverything(writable: bool) returns (states: seq<Conn>, steps: seq<Step>)
    ensures ConnRun(states, steps, Socket(0, false, false, false, writable), None, true)
    ensures steps == [Insert, Arrive(1), IdleShutdown]
    ensures var c := states[3]; c.pc.Waiting? && c.tabled && c.sock.unread > 0 && c.sock.eof && !Queued(c)
  {
    var c0 := Created(Socket(0, false, false, false, writable), None, true);
    var c1 := Apply(c0, Insert);
    var c2 := Apply(c1, Arrive(1));
    states, steps := [c0, c1, c2, Apply(c2, IdleShutdown)], [Insert, Arrive(1), IdleShutdown];
  }

  /** Registered, live, in the table, at end of file, and off the ready list. */
  predicate Stuck(c: Conn) {
    && c.pc.Waiting? && c.tabled && c.sock.eof && !Queued(c)
    && c.item.Some? && c.item.value.mask == c.events && Out !in c.events
  }

  /** A registered connection with a given mask, not yet in the table. */
  function Live(sock: Socket, mask: set<Flag>, ready: bool, pending: nat, pc: Pc): Conn {
    Conn(sock, Some(Item(mask, ready)), mask, pending, false, false, false, pc)
  }

  const WRITE_FLAGS: set<Flag> := {In, Pri, RdHup, Et, Out}

  /** Watching for input, with nothing to send; watching for room as well. */
  function Reader(sock: Socket, ready: bool, pc: Pc): Conn { Live(sock, READ_FLAGS, ready, 0, pc) }

  function Writer(sock: Socket, ready: bool, pending: nat, pc: Pc): Conn { Live(sock, WRITE_FLAGS, ready, pending, pc) }

  lemma CreatedLive(sock: Socket)
    requires !sock.hup && !sock.err
    ensures Created(sock, None, false) == Reader(sock, HasInput(sock), Waiting)
  {
    assert ReadWanted({}) == READ_FLAGS;
    PollOf(sock);
    if HasInput(sock) {
      assert In in Heard(READ_FLAGS, Poll(sock));
    }
  }

  const SILENT := Socket(0, false, false, false, true)
  const ENDED := Socket(0, true, false, false, true)

  lemma EndOfFileReported()
    ensures Takes(Reader(SILENT, false, Waiting), PeerCloses, Reader(ENDED, true, Waiting))
    ensures Takes(Reader(ENDED, true, Waiting), EpollWait, Reader(ENDED, false, Reported({In, RdHup})))
    ensures Takes(Reader(ENDED, false, Reported({In, RdHup})), HandleEvent, Reader(ENDED, false, Reading))
  {
    assert In in Heard(READ_FLAGS, {In, RdHup});
    assert Heard(READ_FLAGS, Poll(ENDED)) == {In, RdHup};
    RouteOf({In, RdHup});
  }

  lemma EarlyDeletionReturns(c: Conn)
    requires !c.tabled && c.pc.Reading? && c.sock.unread == 0 && c.sock.eof
    ensures Takes(c, Read(0), c.(pc := Waiting))
    ensures Takes(c.(pc := Waiting), Insert, c.(pc := Waiting, tabled := true))
  {
  }

  /** The peer closes, and the reactor handles that before the accepting thread has inserted
      the connection: the deletion finds nothing, and the end of file is never announced
      again. */
  lemma EarlyDeletionLosesEdge() returns (states: seq<Conn>, steps: seq<Step>)
    ensures ConnRun(states, steps, SILENT, None, false) && |steps| == 5
    ensures EarlyDeletion(states[3], steps[3]) && steps[4] == Insert && Stuck(states[5])
  {
    hide Apply, Enabled, Created;
    var c := Reader(ENDED, false, Reading);
    var d := c.(pc := Waiting);
    steps := [PeerCloses, EpollWait, HandleEvent, Read(0), Insert];
    states := [
      Reader(SILENT, false, Waiting), Reader(ENDED, true, Waiting),
      Reader(ENDED, false, Reported({In, RdHup})), c, d, d.(tabled := true)];
    CreatedLive(SILENT);
    EndOfFileReported();
    EarlyDeletionReturns(c);
    RunOf(states, steps);
  }

  /** From there only the idle sweep or a reset can help: without them the connection stays
      as it is, whatever else happens. */
  lemma {:induction false} StuckForever(states: seq<Conn>, steps: seq<Step>, k: nat)
    requires IsRun(states, steps) && Stuck(states[0]) && k < |states|
    requires forall i :: 0 <= i < |steps| ==> !steps[i].IdleShutdown? && !steps[i].Resets?
    ensures Stuck(states[k])
  {
    if k > 0 {
      StuckForever(states, steps, k - 1);
      StuckStays(states[k - 1], steps[k - 1]);
    }
  }

  lemma StuckStays(c: Conn, step: Step)
    requires Stuck(c) && Enabled(c, step) && !step.IdleShutdown? && !step.Resets?
    ensures Stuck(Apply(c, step))
  {
    NothingHeard(c.item.value.mask, {Out});
  }

  /** And each of the two does help: the connection is queued again. */
  lemma StuckEnds(c: Conn, step: Step)
    requires Stuck(c) && (step.IdleShutdown? || step.Resets?)
    ensures Enabled(c, step) && (In in c.events ==> Enabled(Apply(c, step), EpollWait))
  {
    hide Heard, Poll;
    if In in c.events {
      WakeQueues(c.item.value, {In, Out, RdHup, Hup}, In);
      WakeQueues(c.item.value, {In, Out, RdHup, Hup, Err}, In);
    }
  }

  // ---- a dropped read edge ----

  const FULL := Socket(0, false, false, false, false)
  const FULL1 := Socket(1, false, false, false, false)
  const OPEN1 := Socket(1, false, false, false, true)

  /** A request is read and its reply meets a full socket. */
  lemma RequestRead()
    ensures Takes(Reader(FULL1, true, Waiting), EpollWait, Reader(FULL1, false, Reported({In})))
    ensures Takes(Reader(FULL1, false, Reported({In})), HandleEvent, Reader(FULL1, false, Reading))
    ensures Takes(Reader(FULL1, false, Reading), Read(1), Reader(FULL, false, Reading))
    ensures Takes(Reader(FULL, false, Reading), Read(0), Reader(FULL, false, Framing))
  {
    assert Heard(READ_FLAGS, Poll(FULL1)) == {In};
    RouteOf({In});
  }

  function Replying(pc: Pc): Conn { Live(FULL, READ_FLAGS, false, 1, pc) }

  lemma ReplyWaits()
    ensures Takes(Reader(FULL, false, Framing), SendReply(1, true), Replying(Writing(ToFraming)))
    ensures Takes(Replying(Writing(ToFraming)), WriteReturns, Replying(Watch(ToFraming)))
    ensures Takes(Writer(FULL, false, 1, Framing), FramingDone, Writer(FULL, false, 1, Waiting))
  {
    hide Heard, Poll;
  }

  lemma WatchTakes()
    ensures Takes(Replying(Watch(ToFraming)), UpdateEpoll, Writer(FULL, false, 1, Framing))
  {
    assert WriteWanted(READ_FLAGS) == WRITE_FLAGS;
    assert Heard(WRITE_FLAGS, Poll(FULL)) == {};
  }

  /** Room and the next request are reported together; the write callback gets the event. */
  lemma BothReported()
    ensures Takes(Writer(FULL, false, 1, Waiting), Arrive(1), Writer(FULL1, true, 1, Waiting))
    ensures Takes(Writer(FULL1, true, 1, Waiting), SpaceOpens, Writer(OPEN1, true, 1, Waiting))
    ensures Takes(Writer(OPEN1, true, 1, Waiting), EpollWait, Writer(OPEN1, false, 1, Reported({In, Out})))
    ensures Takes(Writer(OPEN1, false, 1, Reported({In, Out})), HandleEvent, Writer(OPEN1, false, 1, Writing(ToLoop)))
  {
    assert In in Heard(WRITE_FLAGS, {In});
    assert Heard(WRITE_FLAGS, Poll(OPEN1)) == {In, Out};
  }

  function Drained(pc: Pc): Conn { Writer(OPEN1, false, 0, pc) }

  lemma ReplyDrains()
    ensures Takes(Writer(OPEN1, false, 1, Writing(ToLoop)), WriteSome(1, false), Drained(Writing(ToLoop)))
    ensures Takes(Drained(Writing(ToLoop)), WriteReturns, Drained(Unwatch(ToLoop, false)))
  {
    hide Heard, Poll;
  }

  lemma RepollRestores()
    ensures Takes(Drained(Unwatch(ToLoop, false)), UpdateEpoll, Reader(OPEN1, true, Waiting))
  {
    assert WriteUnwanted(WRITE_FLAGS) == READ_FLAGS;
    assert In in Heard(READ_FLAGS, Poll(OPEN1));
  }

  lemma RunsJoin(states: seq<Conn>, steps: seq<Step>, states': seq<Conn>, steps': seq<Step>)
    requires IsRun(states, steps) && IsRun(states', steps') && states[|steps|] == states'[0]
    ensures IsRun(states + states'[1..], steps + steps')
  {
    hide Apply, Enabled;
  }

  /** The first half: a request is answered, and the reply waits for room. */
  lemma BlockedReply() returns (states: seq<Conn>, steps: seq<Step>)
    ensures ConnRun(states, steps, FULL1, None, false) && |steps| == 8
    ensures states[8] == Writer(FULL, false, 1, Waiting)
  {
    hide Apply, Enabled, Created, Live;
    steps := [EpollWait, HandleEvent, Read(1), Read(0), SendReply(1, true), WriteReturns, UpdateEpoll, FramingDone];
    states := [
      Reader(FULL1, true, Waiting), Reader(FULL1, false, Reported({In})), Reader(FULL1, false, Reading),
      Reader(FULL, false, Reading), Reader(FULL, false, Framing), Replying(Writing(ToFraming)),
      Replying(Watch(ToFraming)), Writer(FULL, false, 1, Framing), Writer(FULL, false, 1, Waiting)];
    CreatedLive(FULL1);
    RequestRead();
    ReplyWaits();
    WatchTakes();
    RunOf(states, steps);
  }

  /** A dropped read edge survives only because of the update that follows the write: here is
      a run in which `handleEvent` drops it, and up to that update the unread request is on
      no list. */
  lemma RepollIsNeeded() returns (states: seq<Conn>, steps: seq<Step>)
    ensures ConnRun(states, steps, FULL1, None, false) && |steps| == 15
    ensures states[11].pc == Reported({In, Out}) && steps[11] == HandleEvent && Route({In, Out}) == WriteCallback
    ensures forall i :: 11 <= i < 15 ==> states[i].sock.unread > 0 && !Queued(states[i])
    ensures steps[14] == UpdateEpoll && states[15].pc.Waiting? && Queued(states[15])
  {
    hide Apply, Enabled, Created;
    var steps' := [Arrive(1), SpaceOpens, EpollWait, HandleEvent, WriteSome(1, false), WriteReturns, UpdateEpoll];
    var states' := [
      Writer(FULL, false, 1, Waiting), Writer(FULL1, true, 1, Waiting), Writer(OPEN1, true, 1, Waiting),
      Writer(OPEN1, false, 1, Reported({In, Out})), Writer(OPEN1, false, 1, Writing(ToLoop)),
      Drained(Writing(ToLoop)), Drained(Unwatch(ToLoop, false)), Reader(OPEN1, true, Waiting)];
    BothReported();
    ReplyDrains();
    RepollRestores();
    RunOf(states', steps');
    states, steps := BlockedReply();
    RunsJoin(states, steps, states', steps');
    states, steps := states + states'[1..], steps + steps';
  }

  // ---- what happens when nothing goes wrong ----

  /** Every kernel event is there to be polled afterwards. */
  lemma EventsShow(c: Conn, step: Step)
    requires Enabled(c, step)
    ensures var poll, sock := Poll(Apply(c, step).sock), Apply(c, step).sock;
            match step
            case Arrive(n) => In in poll && sock == c.sock.(unread := c.sock.unread + n)
            case PeerCloses => {In, RdHup} <= poll && sock.unread == c.sock.unread
            case Resets => {In, Out, RdHup, Hup, Err} <= poll && sock.unread == c.sock.unread
            case IdleShutdown => c.tabled && {In, Out, RdHup, Hup} <= poll && sock.unread == c.sock.unread
            case SpaceOpens => Out in poll && sock == c.sock.(writable := true)
            case SpaceFills => Out !in poll && sock == c.sock.(writable := false)
            case _ => true
  {
    hide Woken, Heard, Poll;
    PollOf(Apply(c, step).sock);
    EofIsPolled(Apply(c, step).sock);
  }

  lemma EofIsPolled(sock: Socket)
    ensures RdHup in Poll(sock) <==> sock.eof
  {
  }

  /** Which reports reach which handler: one flag decides, and EPOLLOUT before the others. */
  lemma EachFlagRoutes(f: Flag, more: set<Flag>)
    ensures Route({Out} + more) == WriteCallback
    ensures f in {In, Pri, RdHup, Hup, Err} && Out !in more ==> Route({f} + more) == ReadCallback
    ensures Route({}) == NoCallback && Route({Et}) == NoCallback
  {
    assert f in {In, Pri, RdHup, Hup, Err} ==> f in ({f} + more) * {In, Pri, RdHup, Hup, Err};
    assert {Et} * {In, Pri, RdHup, Hup, Err} == {};
  }

  /** What the calls take: a read its bytes, a write its bytes and perhaps the last room, a
      failing call the pending error. */
  lemma CallsTake(c: Conn, n: nat, fills: bool)
    ensures c.sock.unread > 0 && Enabled(c, Read(n)) ==>
              var d := Apply(c, Read(n)); d.sock.unread + n == c.sock.unread && d.pc == c.pc && d.pending == c.pending
    ensures Enabled(c, WriteSome(n, fills)) ==>
              var d := Apply(c, WriteSome(n, fills));
              d.pending + n == c.pending && d.sock.writable == (c.sock.writable && !fills) && d.pc == c.pc
    ensures Enabled(c, ReadFails) ==> !Apply(c, ReadFails).sock.err
    ensures Enabled(c, WriteFails) ==> !Apply(c, WriteFails).sock.err
  {
    hide Apply, Enabled;
    if Enabled(c, Read(n)) && c.sock.unread > 0 {
      ReadTakes(c, n);
    }
    if Enabled(c, WriteSome(n, fills)) {
      WriteTakes(c, n, fills);
    }
    if Enabled(c, ReadFails) {
      FailureTakes(c, ReadFails);
    }
    if Enabled(c, WriteFails) {
      FailureTakes(c, WriteFails);
    }
  }

  lemma ReadTakes(c: Conn, n: nat)
    requires Enabled(c, Read(n)) && c.sock.unread > 0
    ensures var d := Apply(c, Read(n));
            d.sock.unread + n == c.sock.unread && d.pc == c.pc && d.pending == c.pending
  {
    hide Heard, Poll, Woken, Kept, Route;
  }

  lemma WriteTakes(c: Conn, n: nat, fills: bool)
    requires Enabled(c, WriteSome(n, fills))
    ensures var d := Apply(c, WriteSome(n, fills));
            d.pending + n == c.pending && d.sock.writable == (c.sock.writable && !fills) && d.pc == c.pc
  {
    hide Heard, Poll, Woken, Kept, Route;
  }

  lemma FailureTakes(c: Conn, step: Step)
    requires Enabled(c, step) && (step.ReadFails? || step.WriteFails?)
    ensures !Apply(c, step).sock.err
  {
    hide Heard, Poll, Woken, Kept, Route;
  }

  /** An EPOLLOUT event with nothing to send ends the watch for it and never deletes, whatever
      the last reply announced. */
  lemma IdleWriteEvent(c: Conn) returns (states: seq<Conn>)
    requires c.pc.Reported? && Out in c.pc.revents && c.pending == 0
    ensures IsRun(states, [HandleEvent, UpdateEpoll]) && states[0] == c
    ensures states[2].pc.Waiting? && Out !in states[2].events && states[2].sock == c.sock
  {
    hide Heard, Poll, Kept;
    var d := Apply(c, HandleEvent);
    states := [c, d, Apply(d, UpdateEpoll)];
  }

  /** A handler can always go on, and without any failure. */
  lemma HandlerGoesOn(c: Conn)
    requires !c.pc.Gone? && !c.pc.Waiting?
    ensures exists step :: !KernelStep(step) && !step.ReadFails? && !step.WriteFails? && Enabled(c, step)
  {
    var step := match c.pc
      case Reported(_) => HandleEvent
      case Reading => Read(c.sock.unread)
      case Framing => FramingDone
      case Writing(_) => if c.pending > 0 then WriteSome(c.pending, false) else WriteReturns
      case _ => UpdateEpoll;
    assert Enabled(c, step);
  }

  /** A closing reply that the socket takes ends a connection in the table; any other returns
      to the framing loop with nothing left to send. */
  lemma ReplyEnds(c: Conn, n: nat, keepAlive: bool) returns (states: seq<Conn>, steps: seq<Step>)
    requires c.pc.Framing? && c.tabled && n > 0
    ensures IsRun(states, steps) && states[0] == c
    ensures steps == [SendReply(n, keepAlive), WriteSome(n, false), WriteReturns, UpdateEpoll]
    ensures states[4].pc == (if keepAlive then Framing else Gone) && Out !in states[4].events
    ensures states[4].pending == 0 && !states[4].failed
  {
    hide Heard, Poll;
    var c1 := Apply(c, SendReply(n, keepAlive));
    var c2 := Apply(c1, WriteSome(n, false));
    var c3 := Apply(c2, WriteReturns);
    states := [c, c1, c2, c3, Apply(c3, UpdateEpoll)];
    steps := [SendReply(n, keepAlive), WriteSome(n, false), WriteReturns, UpdateEpoll];
  }

  /** The rest of a stream is read, and its end then deletes a connection in the table. */
  lemma EndIsNoticed(c: Conn) returns (states: seq<Conn>, steps: seq<Step>)
    requires c.pc.Reading? && c.tabled && c.sock.eof
    ensures IsRun(states, steps) && states[0] == c && states[|steps|].pc.Gone?
    ensures steps == (if c.sock.unread > 0 then [Read(c.sock.unread)] else []) + [Read(0)]
  {
    hide Heard, Poll, Woken, Kept;
    if c.sock.unread > 0 {
      var d := Apply(c, Read(c.sock.unread));
      states, steps := [c, d, Apply(d, Read(0))], [Read(c.sock.unread), Read(0)];
    } else {
      states, steps := [c, Apply(c, Read(0))], [Read(0)];
    }
  }
}
