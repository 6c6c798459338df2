/** Who owns a connection: the server's table, the reactors' batches and descriptor numbers
    that the kernel hands out again after a close. */
module Reactor {
  import opened Wrappers

  // ---- the server object ----

  /** The reactor a descriptor belongs to. */
  function Home(fd: int, reactors: nat): nat
    requires fd >= 0
  {
    if reactors == 0 then 0 else fd % reactors
  }

  /** connections_ after an insertion and after an erasure. */
  function Inserted(table: map<int, nat>, fd: int, id: nat): map<int, nat> { table[fd := id] }

  function Erased(table: map<int, nat>, fd: int): map<int, nat> { if fd == -1 then table else table - {fd} }

  class Server {
    const reactors: nat
    const idleTimeout: int
    var connections: map<int, nat>  // descriptor -> connection

    constructor (reactors: nat, idleTimeout: int)
      requires reactors > 0
      ensures this.reactors == reactors && this.idleTimeout == idleTimeout && connections == map[]
    {
      this.reactors, this.idleTimeout, connections := reactors, idleTimeout, map[];
    }

    /** src/Server.cpp:37: the reactor that gets the connection, None for a bad descriptor. */
    method NewConnection(fd: int, id: nat) returns (reactor: Option<nat>)
      requires reactors > 0 && -1 <= fd
      modifies this
      ensures fd == -1 ==> reactor == None && connections == old(connections)
      ensures fd != -1 ==> reactor == Some(Home(fd, reactors)) && connections == Inserted(old(connections), fd, id)
    {
      if fd == -1 {
        return None;
      }
      reactor := Some(fd % reactors);
      connections := connections[fd := id];
    }

    /** src/Server.cpp:81. */
    method DeleteConnection(fd: int)
      modifies this
      ensures connections == Erased(old(connections), fd)
    {
      if fd == -1 {
        return;
      }
      connections := connections - {fd};
    }

    /** src/Server.cpp:63: the descriptors shut down, exactly the ones idle for too long; the
        table itself stays as it is.  `keys` is the order in which the map is walked. */
    method SweepIdle(now: int, lastActive: map<nat, int>, keys: seq<int>) returns (shut: set<int>)
      requires forall fd :: fd in keys <==> fd in connections
      requires forall fd :: fd in connections ==> connections[fd] in lastActive
      ensures idleTimeout <= 0 ==> shut == {}
      ensures idleTimeout > 0 ==>
                forall fd :: fd in shut <==> fd in connections && now - lastActive[connections[fd]] > idleTimeout
    {
      shut := {};
      if idleTimeout <= 0 {
        return;
      }
      for i := 0 to |keys|
        invariant forall fd :: fd in shut <==>
                    fd in keys[..i] && now - lastActive[connections[fd]] > idleTimeout
      {
        var fd := keys[i];
        assert keys[..i + 1] == keys[..i] + [fd];
        if now - lastActive[connections[fd]] > idleTimeout {
          shut := shut + {fd};
        }
      }
      assert keys[..|keys|] == keys;
    }
  }

  // ---- the system ----

  datatype Conn = Conn(fd: int, reactor: nat)

  datatype Loop = Loop(turn: Option<nat>, batch: seq<nat>)  // being handled, still to come

  datatype Sys = Sys(
    live: map<nat, Conn>,      // connections not yet destroyed; each owns its open descriptor
    table: map<int, nat>,      // connections_
    building: Option<nat>,     // constructed and registered, not yet in the table
    next: nat,
    loops: seq<Loop>)

  function Initial(reactors: nat): Sys {
    Sys(map[], map[], None, 0, seq(reactors, _ => Loop(None, [])))
  }

  datatype Step =
    | Accept(fd: int)             // the constructor registers the channel with its reactor
    | Insert                      // connections_[fd] = conn
    | EpollWait(r: nat, batch: seq<nat>)
    | BeginTurn(r: nat)
    | EndTurn(r: nat)
    | Delete(r: nat)              // the handler deletes its own connection and returns
    | Sweep                       // shuts sockets down, but neither closes nor erases

  predicate Distinct(ids: seq<nat>) { forall i, j :: 0 <= i < j < |ids| ==> ids[i] != ids[j] }

  predicate Registered(s: Sys, r: nat, id: nat) { id in s.live && s.live[id].reactor == r }

  ghost predicate Enabled(s: Sys, step: Step) {
    match step
    case Accept(fd) => fd >= 0 && s.building.None? && forall id :: id in s.live ==> s.live[id].fd != fd
    case Insert => s.building.Some? && s.building.value in s.live
    case EpollWait(r, batch) =>
      && r < |s.loops| && s.loops[r] == Loop(None, []) && Distinct(batch)
      && forall i :: 0 <= i < |batch| ==> Registered(s, r, batch[i])
    case BeginTurn(r) => r < |s.loops| && s.loops[r].turn.None? && s.loops[r].batch != []
    case EndTurn(r) => r < |s.loops| && s.loops[r].turn.Some?
    case Delete(r) => r < |s.loops| && s.loops[r].turn.Some? && s.loops[r].turn.value in s.live
    case Sweep => true
  }

  function Apply(s: Sys, step: Step): Sys
    requires Enabled(s, step)
  {
    match step
    case Accept(fd) =>
      s.(live := s.live[s.next := Conn(fd, Home(fd, |s.loops|))], building := Some(s.next), next := s.next + 1)
    case Insert =>
      s.(table := Inserted(s.table, s.live[s.building.value].fd, s.building.value), building := None)
    case EpollWait(r, batch) => s.(loops := s.loops[r := Loop(None, batch)])
    case BeginTurn(r) => s.(loops := s.loops[r := Loop(Some(s.loops[r].batch[0]), s.loops[r].batch[1..])])
    case EndTurn(r) => s.(loops := s.loops[r := s.loops[r].(turn := None)])
    case Delete(r) =>
      // erase by descriptor: destroys whatever the table holds there, or nothing
      var fd := s.live[s.loops[r].turn.value].fd;
      var after := s.(loops := s.loops[r := s.loops[r].(turn := None)]);
      after.(live := if fd in s.table then s.live - {s.table[fd]} else s.live, table := Erased(s.table, fd))
    case Sweep => s
  }

  // ---- the invariant ----

  /** No two live connections share a descriptor; each is on reactor `fd mod N`. */
  predicate Placed(s: Sys) {
    && (forall a, b :: a in s.live && b in s.live && s.live[a].fd == s.live[b].fd ==> a == b)
    && (forall id :: id in s.live ==>
          && id < s.next && s.live[id].fd >= 0
          && |s.loops| > 0 && s.live[id].reactor == s.live[id].fd % |s.loops|)
  }

  /** The table and the live connections agree, but for the one being built. */
  predicate Tabled(s: Sys) {
    && (forall fd :: fd in s.table ==> s.table[fd] in s.live && s.live[s.table[fd]].fd == fd)
    && (forall id :: id in s.live ==>
          (s.live[id].fd in s.table && s.table[s.live[id].fd] == id) || s.building == Some(id))
    && (s.building.Some? ==> s.building.value in s.live && s.live[s.building.value].fd !in s.table)
  }

  /** Everything a reactor still has to handle is alive, its own, and listed once. */
  predicate LoopOk(s: Sys, r: nat)
    requires r < |s.loops|
  {
    var l := s.loops[r];
    && Distinct(l.batch)
    && (forall i :: 0 <= i < |l.batch| ==> Registered(s, r, l.batch[i]))
    && (l.turn.Some? ==> Registered(s, r, l.turn.value) && l.turn.value !in l.batch)
  }

  predicate LoopsOk(s: Sys) { forall r :: 0 <= r < |s.loops| ==> LoopOk(s, r) }

  predicate Inv(s: Sys) { Placed(s) && Tabled(s) && LoopsOk(s) }

  /** Deleting by descriptor destroys the very connection whose handler runs, or nothing if
      it has not reached the table yet. */
  lemma DeleteIsOwn(s: Sys, r: nat)
    requires Inv(s) && Enabled(s, Delete(r))
    ensures var id := s.loops[r].turn.value;
            var q := Apply(s, Delete(r));
            if s.building == Some(id) then q.live == s.live && q.table == s.table
            else q.live == s.live - {id} && q.table == s.table - {s.live[id].fd}
  {
  }

  lemma AcceptKeepsTable(s: Sys, fd: int)
    requires Placed(s) && Tabled(s) && Enabled(s, Accept(fd)) && |s.loops| > 0
    ensures Placed(Apply(s, Accept(fd))) && Tabled(Apply(s, Accept(fd)))
  {
    assert s.next !in s.live;
    assert fd !in s.table;
  }

  lemma InsertKeepsTable(s: Sys)
    requires Placed(s) && Tabled(s) && Enabled(s, Insert)
    ensures Placed(Apply(s, Insert)) && Tabled(Apply(s, Insert))
  {
  }

  lemma DeleteKeepsTable(s: Sys, r: nat)
    requires Inv(s) && Enabled(s, Delete(r))
    ensures Placed(Apply(s, Delete(r))) && Tabled(Apply(s, Delete(r)))
  {
    hide LoopsOk;
    DeleteIsOwn(s, r);
  }

  lemma DeleteKeepsLoop(s: Sys, r: nat, x: nat)
    requires Inv(s) && Enabled(s, Delete(r)) && x < |s.loops|
    ensures LoopOk(Apply(s, Delete(r)), x)
  {
    DeleteIsOwn(s, r);
    hide Placed, Tabled, LoopsOk;
    assert LoopOk(s, x) && LoopOk(s, r);
    var q := Apply(s, Delete(r));
    var id := s.loops[r].turn.value;
    forall i | 0 <= i < |q.loops[x].batch| ensures Registered(q, x, q.loops[x].batch[i]) {
      assert q.loops[x].batch[i] == s.loops[x].batch[i] && Registered(s, x, s.loops[x].batch[i]);
      assert x == r ==> s.loops[x].batch[i] in s.loops[r].batch;
    }
  }

  lemma OtherKeepsLoop(s: Sys, step: Step, x: nat)
    requires x < |s.loops| && LoopOk(s, x) && s.next !in s.live && Enabled(s, step) && !step.Delete?
    ensures LoopOk(Apply(s, step), x)
  {
    hide Inserted, Home;
  }

  lemma StepKeeps(s: Sys, step: Step)
    requires Inv(s) && Enabled(s, step) && |s.loops| > 0
    ensures Inv(Apply(s, step)) && |Apply(s, step).loops| == |s.loops|
  {
    var q := Apply(s, step);
    match step {
      case Accept(fd) => AcceptKeepsTable(s, fd);
      case Insert => InsertKeepsTable(s);
      case Delete(r) => DeleteKeepsTable(s, r);
      case _ =>
    }
    forall x | 0 <= x < |q.loops| ensures LoopOk(q, x) {
      if step.Delete? {
        DeleteKeepsLoop(s, step.r, x);
      } else {
        assert LoopOk(s, x) && s.next !in s.live;
        OtherKeepsLoop(s, step, x);
      }
    }
  }

  // ---- whole runs ----

  ghost predicate IsRun(states: seq<Sys>, steps: seq<Step>) {
    && |states| == |steps| + 1
    && forall i :: 0 <= i < |steps| ==> Enabled(states[i], steps[i]) && states[i + 1] == Apply(states[i], steps[i])
  }

  lemma {:induction false} RunKeeps(reactors: nat, states: seq<Sys>, steps: seq<Step>, k: nat)
    requires IsRun(states, steps) && states[0] == Initial(reactors) && reactors > 0 && k < |states|
    ensures Inv(states[k]) && |states[k].loops| == reactors
  {
    if k > 0 {
      RunKeeps(reactors, states, steps, k - 1);
      StepKeeps(states[k - 1], steps[k - 1]);
    }
  }

  /** Reactor ownership, in every interleaving of accepts, batches, deletions and reused
      descriptors: each table entry is a live connection owning that descriptor on reactor
      `fd mod N`, no live connection is missing from the table except the one being built,
      and every channel still to be handled is alive and on the reactor handling it. */
  lemma ReactorOwnership(reactors: nat, states: seq<Sys>, steps: seq<Step>, k: nat)
    requires IsRun(states, steps) && states[0] == Initial(reactors) && reactors > 0 && k < |states|
    ensures var s := states[k];
            && (forall fd :: fd in s.table ==> s.table[fd] in s.live && s.live[s.table[fd]] == Conn(fd, fd % reactors))
            && (forall id :: id in s.live && s.building != Some(id) ==>
                  s.live[id].fd in s.table && s.table[s.live[id].fd] == id)
            && (forall r, i :: 0 <= r < |s.loops| && 0 <= i < |s.loops[r].batch| ==>
                  Registered(s, r, s.loops[r].batch[i]))
  {
    RunKeeps(reactors, states, steps, k);
    var s := states[k];
    forall r, i | 0 <= r < |s.loops| && 0 <= i < |s.loops[r].batch| ensures Registered(s, r, s.loops[r].batch[i]) {
      assert LoopOk(s, r);
    }
  }

  /** Insertion never overwrites an entry, so it never destroys a connection. */
  lemma InsertNeverOverwrites(reactors: nat, states: seq<Sys>, steps: seq<Step>, k: nat)
    requires IsRun(states, steps) && states[0] == Initial(reactors) && reactors > 0 && k < |steps| && steps[k].Insert?
    ensures states[k].live[states[k].building.value].fd !in states[k].table
    ensures states[k + 1].live == states[k].live
  {
    RunKeeps(reactors, states, steps, k);
  }

  /** A handler's connection is alive when its turn comes, and stays so until its own handler
      deletes it: what other reactors do meanwhile cannot destroy it. */
  lemma TurnsAreSafe(reactors: nat, states: seq<Sys>, steps: seq<Step>, k: nat, r: nat)
    requires IsRun(states, steps) && states[0] == Initial(reactors) && reactors > 0 && k < |states|
    requires r < reactors && r < |states[k].loops| && states[k].loops[r].turn.Some?
    ensures Registered(states[k], r, states[k].loops[r].turn.value)
  {
    RunKeeps(reactors, states, steps, k);
    assert LoopOk(states[k], r);
  }

  // ---- the event loop ----

  /** What `epoll_wait` reported to reactor `r` in the first `k` steps, and the connections
      whose turn has begun there. */
  function Reported(steps: seq<Step>, r: nat, k: nat): seq<nat>
    requires k <= |steps|
  {
    if k == 0 then []
    else Reported(steps, r, k - 1) +
         if steps[k - 1].EpollWait? && steps[k - 1].r == r then steps[k - 1].batch else []
  }

  function Turns(states: seq<Sys>, steps: seq<Step>, r: nat, k: nat): seq<nat>
    requires k <= |steps| && |states| == |steps| + 1
  {
    if k == 0 then []
    else Turns(states, steps, r, k - 1) +
         if steps[k - 1] == BeginTurn(r) && r < |states[k].loops| && states[k].loops[r].turn.Some?
         then [states[k].loops[r].turn.value] else []
  }

  /** In every interleaving a reactor handles exactly what was reported to it, each channel
      once and in order: what it has begun, followed by what is still to come. */
  lemma {:induction false} HandledInOrder(reactors: nat, states: seq<Sys>, steps: seq<Step>, r: nat, k: nat)
    requires IsRun(states, steps) && states[0] == Initial(reactors) && r < reactors && k < |states|
    ensures r < |states[k].loops|
    ensures Reported(steps, r, k) == Turns(states, steps, r, k) + states[k].loops[r].batch
  {
    hide Apply;
    if k > 0 {
      HandledInOrder(reactors, states, steps, r, k - 1);
      var s, step := states[k - 1], steps[k - 1];
      assert Enabled(s, step) && states[k] == Apply(s, step);
      LoopMoves(s, step, r);
      if step == BeginTurn(r) {
        var batch := s.loops[r].batch;
        assert Turns(states, steps, r, k - 1) + batch == Turns(states, steps, r, k - 1) + [batch[0]] + batch[1..];
      }
    }
  }

  /** A step on another reactor, or on none, leaves this one's loop alone. */
  lemma LoopMoves(s: Sys, step: Step, r: nat)
    requires Enabled(s, step) && r < |s.loops|
    ensures var q := Apply(s, step);
            && |q.loops| == |s.loops|
            && (step == BeginTurn(r) ==> q.loops[r] == Loop(Some(s.loops[r].batch[0]), s.loops[r].batch[1..]))
            && (step.EpollWait? && step.r == r ==> s.loops[r].batch == [] && q.loops[r].batch == step.batch)
            && (step != BeginTurn(r) && !(step.EpollWait? && step.r == r) ==> q.loops[r].batch == s.loops[r].batch)
  {
  }

  /** The steps that handle a batch without deleting anything. */
  function BatchSteps(r: nat, n: nat): seq<Step> {
    if n == 0 then [] else [BeginTurn(r), EndTurn(r)] + BatchSteps(r, n - 1)
  }

  /** A batch ends, and then the reactor waits again. */
  lemma {:induction false} BatchEnds(s: Sys, r: nat) returns (states: seq<Sys>)
    requires r < |s.loops| && s.loops[r].turn.None?
    ensures IsRun(states, BatchSteps(r, |s.loops[r].batch|)) && states[0] == s
    ensures states[|states| - 1] == s.(loops := s.loops[r := Loop(None, [])])
    ensures Enabled(states[|states| - 1], EpollWait(r, []))
    decreases |s.loops[r].batch|
  {
    var batch := s.loops[r].batch;
    if batch == [] {
      states := [s];
      assert s.loops[r := Loop(None, [])] == s.loops;
    } else {
      var q := Apply(s, BeginTurn(r));
      var t := Apply(q, EndTurn(r));
      assert t.loops == s.loops[r := Loop(None, batch[1..])];
      var rest := BatchEnds(t, r);
      states := [s, q] + rest;
      assert t.loops[r := Loop(None, [])] == s.loops[r := Loop(None, [])];
      var steps := BatchSteps(r, |batch|);
      forall i | 0 <= i < |steps| ensures Enabled(states[i], steps[i]) && states[i + 1] == Apply(states[i], steps[i]) {
        if i >= 2 {
          assert steps[i] == BatchSteps(r, |batch| - 1)[i - 2] && states[i] == rest[i - 2];
        }
      }
    }
  }

  /** A connection's life: accepted, inserted, reported, deleted by its own handler; then its
      descriptor can be used again. */
  lemma Lifetime(reactors: nat, fd: int) returns (states: seq<Sys>, steps: seq<Step>)
    requires reactors > 0 && fd >= 0
    ensures IsRun(states, steps) && states[0] == Initial(reactors)
    ensures var r := fd % reactors;
            steps == [Accept(fd), Insert, EpollWait(r, [0]), BeginTurn(r), Delete(r), Accept(fd)]
    ensures states[2].table == map[fd := 0] && states[4].loops[fd % reactors].turn == Some(0)
    ensures states[5].table == map[] && states[5].live == map[] && states[6].live == map[1 := Conn(fd, fd % reactors)]
  {
    var r := fd % reactors;
    var s0 := Initial(reactors);
    var s1 := Apply(s0, Accept(fd));
    var s2 := Apply(s1, Insert);
    var s3 := Apply(s2, EpollWait(r, [0]));
    var s4 := Apply(s3, BeginTurn(r));
    var s5 := Apply(s4, Delete(r));
    states := [s0, s1, s2, s3, s4, s5, Apply(s5, Accept(fd))];
    steps := [Accept(fd), Insert, EpollWait(r, [0]), BeginTurn(r), Delete(r), Accept(fd)];
  }
}
