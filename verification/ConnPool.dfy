/** The MySQL and Redis connection pools: a queue of idle connections, callers that wait for
    one with a timeout, and (for Redis) replacement of broken connections. */
module ConnPool {
  import opened Wrappers
  import opened Counting

  type Conn = nat

  // ---- the pool object ----

  /** A Redis reply; None stands for a broken connection. */
  datatype Reply = Text(value: string) | Integer(n: int) | Nil | Status | Error

  datatype RedisStatus = Ok | NotFound | Failed

  /** The connections that opening attempts produced, in order. */
  function Opened(attempts: seq<Option<Conn>>): (r: seq<Conn>)
    ensures |r| <= |attempts|
  {
    if attempts == [] then []
    else (if attempts[0].Some? then [attempts[0].value] else []) + Opened(attempts[1..])
  }

  /** What the last check of `getConn` finds, and what it leaves. */
  function Front(pool: seq<Conn>): Option<Conn> { if pool == [] then None else Some(pool[0]) }

  function Behind(pool: seq<Conn>): (rest: seq<Conn>)
    ensures pool == (if Front(pool).Some? then [Front(pool).value] else []) + rest
  {
    if pool == [] then [] else pool[1..]
  }

  /** The queue after `releaseConn`; null is ignored. */
  function Returned(pool: seq<Conn>, conn: Option<Conn>): seq<Conn> {
    if conn.Some? then pool + [conn.value] else pool
  }

  /** The queue after a caller is done: the front connection goes back to the end, or is
      freed and perhaps replaced; an empty queue stays as it is (the wait timed out). */
  function AfterUse(pool: seq<Conn>, reply: Option<Reply>, replacement: Option<Conn>): seq<Conn> {
    if pool == [] then [] else Returned(Behind(pool), if reply.Some? then Front(pool) else replacement)
  }

  function FreedBy(pool: seq<Conn>, reply: Option<Reply>): seq<Conn> {
    if pool == [] || reply.Some? then [] else [pool[0]]
  }

  /** On every path of a command the connection taken is in the queue again or freed, exactly
      once, and nothing else comes or goes but a replacement for a freed one. */
  lemma UseConserves(pool: seq<Conn>, reply: Option<Reply>, replacement: Option<Conn>)
    ensures multiset(AfterUse(pool, reply, replacement)) + multiset(FreedBy(pool, reply))
         == multiset(pool) +
            if pool != [] && reply.None? && replacement.Some? then multiset{replacement.value} else multiset{}
    ensures FreedBy(pool, reply) == if pool != [] && reply.None? then [pool[0]] else []
  {
    if pool != [] {
      assert pool == [pool[0]] + pool[1..];
    }
  }

  /** Opening keeps the order, and a failed attempt leaves nothing behind. */
  lemma {:induction false} OpenedInOrder(conns: seq<Conn>, a: seq<Option<Conn>>, b: seq<Option<Conn>>)
    ensures Opened(seq(|conns|, i requires 0 <= i < |conns| => Some(conns[i]))) == conns
    ensures Opened(a + [None] + b) == Opened(a + b)
    decreases |conns| + |a|
  {
    if conns != [] {
      var all := seq(|conns|, i requires 0 <= i < |conns| => Some(conns[i]));
      var rest := conns[1..];
      assert all[1..] == seq(|rest|, i requires 0 <= i < |rest| => Some(rest[i]));
      OpenedInOrder(rest, a, b);
    } else if a == [] {
      assert ([None] + b)[1..] == b && a + [None] + b == [None] + b && a + b == b;
    } else {
      OpenedInOrder(conns, a[1..], b);
      assert (a + [None] + b)[1..] == a[1..] + [None] + b && (a + b)[1..] == a[1..] + b;
    }
  }

  /** The queue both pools keep; each method is one critical section. */
  class IdleQueue {
    var pool: seq<Conn>

    /** The constructor loops (src/MysqlPool.cpp:19-43, src/RedisPool.cpp:19-27): one attempt
        per slot, the failed ones skipped. */
    constructor (attempts: seq<Option<Conn>>)
      ensures pool == Opened(attempts)
    {
      var conns: seq<Conn> := [];
      for i := 0 to |attempts|
        invariant conns + Opened(attempts[i..]) == Opened(attempts)
      {
        assert attempts[i..][1..] == attempts[i + 1..];
        if attempts[i].Some? {
          conns := conns + [attempts[i].value];
        }
      }
      pool := conns;
    }

    /** The last check of `getConn`: None when the wait ended with the queue empty. */
    method GetConn() returns (conn: Option<Conn>)
      modifies this
      ensures conn == Front(old(pool)) && pool == Behind(old(pool))
    {
      if pool == [] {
        return None;
      }
      conn := Some(pool[0]);
      pool := pool[1..];
    }

    method ReleaseConn(conn: Option<Conn>)
      modifies this
      ensures pool == Returned(old(pool), conn)
    {
      if conn.Some? {
        pool := pool + [conn.value];
      }
    }
  }

  /** src/include/MysqlPool.h:35: acquired on construction, returned on destruction. */
  class MysqlGuard {
    const queue: IdleQueue
    const conn: Option<Conn>

    constructor (queue: IdleQueue)
      modifies queue
      ensures this.queue == queue
      ensures conn == Front(old(queue.pool)) && queue.pool == Behind(old(queue.pool))
    {
      var acquired := queue.GetConn();
      this.queue, this.conn := queue, acquired;
    }

    method Destroy()
      modifies queue
      ensures queue.pool == Returned(old(queue.pool), conn)
    {
      if conn.Some? {
        queue.ReleaseConn(conn);
      }
    }
  }

  /** A guarded scope returns the very connection it took, exactly once, whatever other
      scopes return meanwhile. */
  method GuardedScope(queue: IdleQueue, meanwhile: seq<Conn>) returns (got: Option<Conn>)
    modifies queue
    ensures got.None? <==> old(queue.pool) == []
    ensures queue.pool == if got.Some? then old(queue.pool)[1..] + meanwhile + [old(queue.pool)[0]] else meanwhile
  {
    var guard := new MysqlGuard(queue);
    got := guard.conn;
    queue.pool := queue.pool + meanwhile;
    guard.Destroy();
  }

  class RedisPool {
    const queue: IdleQueue
    var freed: seq<Conn>

    constructor (attempts: seq<Option<Conn>>)
      ensures queue.pool == Opened(attempts) && freed == []
    {
      queue := new IdleQueue(attempts);
      freed := [];
    }

    /** src/RedisPool.cpp:59; `replacement` is what reconnecting produced. */
    method DiscardBrokenConn(conn: Conn, replacement: Option<Conn>)
      modifies this, queue
      ensures freed == old(freed) + [conn]
      ensures queue.pool == Returned(old(queue.pool), replacement)
    {
      freed := freed + [conn];
      queue.ReleaseConn(replacement);
    }

    method Get(reply: Option<Reply>, replacement: Option<Conn>) returns (value: string, status: RedisStatus)
      modifies this, queue
      ensures queue.pool == AfterUse(old(queue.pool), reply, replacement)
      ensures freed == old(freed) + FreedBy(old(queue.pool), reply)
      ensures status == Failed <==> old(queue.pool) == [] || reply.None?
      ensures status == Ok <==> old(queue.pool) != [] && reply.Some? && reply.value.Text?
      ensures value == if status == Ok then reply.value.value else ""
    {
      var conn := queue.GetConn();
      if conn.None? {
        return "", Failed;
      }
      if reply.None? {
        DiscardBrokenConn(conn.value, replacement);
        return "", Failed;
      }
      value, status := "", NotFound;
      if reply.value.Text? {
        value, status := reply.value.value, Ok;
      }
      queue.ReleaseConn(conn);
    }

    method Setex(reply: Option<Reply>, replacement: Option<Conn>) returns (ok: bool)
      modifies this, queue
      ensures queue.pool == AfterUse(old(queue.pool), reply, replacement)
      ensures freed == old(freed) + FreedBy(old(queue.pool), reply)
      ensures ok <==> old(queue.pool) != [] && reply.Some? && !reply.value.Error?
    {
      var conn := queue.GetConn();
      if conn.None? {
        return false;
      }
      if reply.None? {
        DiscardBrokenConn(conn.value, replacement);
        return false;
      }
      ok := !reply.value.Error?;
      queue.ReleaseConn(conn);
    }

    method Del(reply: Option<Reply>, replacement: Option<Conn>) returns (status: RedisStatus)
      modifies this, queue
      ensures queue.pool == AfterUse(old(queue.pool), reply, replacement)
      ensures freed == old(freed) + FreedBy(old(queue.pool), reply)
      ensures status == Failed <==> old(queue.pool) == [] || reply.None?
      ensures status == Ok <==> old(queue.pool) != [] && reply.Some? && reply.value.Integer? && reply.value.n > 0
    {
      var conn := queue.GetConn();
      if conn.None? {
        return Failed;
      }
      if reply.None? {
        DiscardBrokenConn(conn.value, replacement);
        return Failed;
      }
      status := if reply.value.Integer? && reply.value.n > 0 then Ok else NotFound;
      queue.ReleaseConn(conn);
    }
  }

  // ---- the system ----

  datatype Caller =
    | Outside
    | AtLock            // entering getConn
    | Waiting           // asleep in wait_for, not signalled
    | Signalled         // woken, about to test the predicate again
    | Expired           // the timeout fired, about to test it one last time
    | Holding(conn: Conn)
    | Replacing         // freed a broken connection, connecting anew
    | Fresh(conn: Conn) // connected, about to push

  datatype Pool = Pool(
    idle: seq<Conn>, callers: seq<Caller>,
    freed: seq<Conn>, next: Conn,  // connections freed so far; the next one to be opened
    created: nat, lost: nat,       // opened by the constructor; replacements that failed
    nulls: nat)                    // getConn calls that returned null

  function Initial(created: nat, callers: nat): Pool {
    Pool(seq(created, i => i), seq(callers, _ => Outside), [], created, created, 0, 0)
  }

  datatype Step =
    | Enter(i: nat)
    | Check(i: nat, late: bool)       // late: the deadline has passed by now
    | Timeout(i: nat)
    | Spurious(i: nat)
    | Release(i: nat, w: nat)         // push and notify_one under the lock
    | Break(i: nat)                   // no reply: free the connection
    | Connect(i: nat, ok: bool)
    | PushFresh(i: nat, w: nat)

  predicate Asleep(cs: seq<Caller>) { exists i :: 0 <= i < |cs| && cs[i].Waiting? }

  predicate Wakes(cs: seq<Caller>, w: nat) {
    Asleep(cs) ==> w < |cs| && cs[w].Waiting?
  }

  predicate Enabled(p: Pool, step: Step) {
    step.i < |p.callers| &&
    var c := p.callers[step.i];
    match step
    case Enter(_) => c.Outside?
    case Check(_, _) => c.AtLock? || c.Signalled? || c.Expired?
    case Timeout(_) => c.Waiting?
    case Spurious(_) => c.Waiting?
    case Release(_, w) => c.Holding? && Wakes(p.callers, w)
    case Break(_) => c.Holding?
    case Connect(_, _) => c.Replacing?
    case PushFresh(_, w) => c.Fresh? && Wakes(p.callers, w)
  }

  /** `notify_one`: wakes `w` if anybody sleeps. */
  function Notify(cs: seq<Caller>, w: nat): (r: seq<Caller>)
    requires Wakes(cs, w)
    ensures |r| == |cs|
  {
    if Asleep(cs) then cs[w := Signalled] else cs
  }

  function Push(p: Pool, i: nat, w: nat): Pool
    requires i < |p.callers| && (p.callers[i].Holding? || p.callers[i].Fresh?) && Wakes(p.callers, w)
  {
    p.(idle := Returned(p.idle, Some(p.callers[i].conn)), callers := Notify(p.callers, w)[i := Outside])
  }

  function Apply(p: Pool, step: Step): Pool
    requires Enabled(p, step)
  {
    var c := p.callers[step.i];
    match step
    case Enter(i) => p.(callers := p.callers[i := AtLock])
    case Check(i, late) =>
      var front := Front(p.idle);
      if front.Some? then p.(idle := Behind(p.idle), callers := p.callers[i := Holding(front.value)])
      else if c.Expired? || (c.Signalled? && late) then p.(callers := p.callers[i := Outside], nulls := p.nulls + 1)
      else p.(callers := p.callers[i := Waiting])
    case Timeout(i) => p.(callers := p.callers[i := Expired])
    case Spurious(i) => p.(callers := p.callers[i := Signalled])
    case Release(i, w) => Push(p, i, w)
    case Break(i) => p.(freed := p.freed + [c.conn], callers := p.callers[i := Replacing])
    case Connect(i, ok) =>
      if ok then p.(next := p.next + 1, callers := p.callers[i := Fresh(p.next)])
      else p.(lost := p.lost + 1, callers := p.callers[i := Outside])
    case PushFresh(i, w) => Push(p, i, w)
  }

  // ---- counting ----

  function Signals(cs: seq<Caller>): nat {
    if cs == [] then 0 else One(cs[0].Signalled?) + Signals(cs[1..])
  }

  predicate Has(c: Caller, conn: Conn) { (c.Holding? || c.Fresh?) && c.conn == conn }

  /** How many callers have that connection in hand. */
  function Hands(cs: seq<Caller>, conn: Conn): nat {
    if cs == [] then 0 else One(Has(cs[0], conn)) + Hands(cs[1..], conn)
  }

  predicate Owes(c: Caller) { c.Holding? || c.Replacing? || c.Fresh? }

  /** How many callers hold a connection or a slot that one will fill. */
  function Debts(cs: seq<Caller>): nat {
    if cs == [] then 0 else One(Owes(cs[0])) + Debts(cs[1..])
  }

  lemma {:induction false} Update(cs: seq<Caller>, i: nat, c: Caller, conn: Conn)
    requires i < |cs|
    ensures Signals(cs[i := c]) + One(cs[i].Signalled?) == Signals(cs) + One(c.Signalled?)
    ensures Hands(cs[i := c], conn) + One(Has(cs[i], conn)) == Hands(cs, conn) + One(Has(c, conn))
    ensures Debts(cs[i := c]) + One(Owes(cs[i])) == Debts(cs) + One(Owes(c))
  {
    if i == 0 {
      assert cs[i := c][1..] == cs[1..];
    } else {
      assert cs[i := c][1..] == cs[1..][i - 1 := c];
      Update(cs[1..], i - 1, c, conn);
    }
  }

  lemma SleepersOther(cs: seq<Caller>, i: nat, c: Caller)
    requires i < |cs|
    ensures Asleep(cs[i := c]) ==> c.Waiting? || Asleep(cs)
  {
    var ds := cs[i := c];
    if j :| 0 <= j < |ds| && ds[j].Waiting? {
      assert j != i ==> cs[j].Waiting?;
    }
  }

  // ---- the invariant ----

  /** Nobody sleeps over an idle connection that is not already promised to a woken caller. */
  predicate WaitsSound(p: Pool) {
    Asleep(p.callers) ==> |p.idle| <= Signals(p.callers)
  }

  /** Every connection the constructor opened is idle, held, being replaced or lost. */
  predicate Conserved(p: Pool) {
    |p.idle| + Debts(p.callers) + p.lost == p.created
  }

  function Places(p: Pool, conn: Conn): nat {
    Count(p.idle, conn) + Hands(p.callers, conn) + Count(p.freed, conn)
  }

  /** Every connection ever opened is in exactly one place: idle, in one caller's hand, or
      freed; one not opened yet is nowhere. */
  ghost predicate Owned(p: Pool) {
    forall conn: Conn :: Places(p, conn) == One(conn < p.next)
  }

  ghost predicate Inv(p: Pool) { WaitsSound(p) && Conserved(p) && Owned(p) }

  lemma {:induction false} Nobody(cs: seq<Caller>, conn: Conn)
    requires forall i :: 0 <= i < |cs| ==> cs[i].Outside?
    ensures Hands(cs, conn) == 0 && Debts(cs) == 0
  {
    if cs != [] {
      Nobody(cs[1..], conn);
    }
  }

  lemma {:induction false} Numbered(n: nat, conn: Conn)
    ensures Count(seq(n, i => i), conn) == One(conn < n)
  {
    if n > 0 {
      Numbered(n - 1, conn);
      assert seq(n, i => i) == seq(n - 1, i => i) + [n - 1];
    }
  }

  lemma InitialIsGood(created: nat, callers: nat)
    ensures Inv(Initial(created, callers))
  {
    var p := Initial(created, callers);
    Nobody(p.callers, 0);
    forall conn: Conn ensures Places(p, conn) == One(conn < p.next) {
      Nobody(p.callers, conn);
      Numbered(created, conn);
    }
  }

  lemma PushKeeps(p: Pool, i: nat, w: nat, conn: Conn)
    requires i < |p.callers| && (p.callers[i].Holding? || p.callers[i].Fresh?) && Wakes(p.callers, w)
    requires WaitsSound(p) && Conserved(p) && Places(p, conn) == One(conn < p.next)
    ensures var q := Push(p, i, w);
            WaitsSound(q) && Conserved(q) && Places(q, conn) == One(conn < q.next)
  {
    hide Count, Signals, Hands, Debts;
    var cs := Notify(p.callers, w);
    CountAppend(p.idle, p.callers[i].conn, conn);
    if Asleep(p.callers) {
      Update(p.callers, w, Signalled, conn);
    }
    Update(cs, i, Outside, conn);
    SleepersOther(cs, i, Outside);
    if Asleep(p.callers) {
      SleepersOther(p.callers, w, Signalled);
    }
  }

  lemma StepKeepsAt(p: Pool, step: Step, conn: Conn)
    requires WaitsSound(p) && Conserved(p) && Places(p, conn) == One(conn < p.next) && Enabled(p, step)
    ensures var q := Apply(p, step);
            WaitsSound(q) && Conserved(q) && Places(q, conn) == One(conn < q.next)
  {
    if step.Release? || step.PushFresh? {
      PushKeeps(p, step.i, step.w, conn);
    } else if step.Check? {
      CheckKeeps(p, step.i, step.late, conn);
    } else {
      OtherStepKeeps(p, step, conn);
    }
  }

  lemma CheckKeeps(p: Pool, i: nat, late: bool, conn: Conn)
    requires WaitsSound(p) && Conserved(p) && Places(p, conn) == One(conn < p.next) && Enabled(p, Check(i, late))
    ensures var q := Apply(p, Check(i, late));
            WaitsSound(q) && Conserved(q) && Places(q, conn) == One(conn < q.next)
  {
    hide Count, Signals, Hands, Debts, Asleep;
    var c := Apply(p, Check(i, late)).callers[i];
    Update(p.callers, i, c, conn);
    SleepersOther(p.callers, i, c);
    if p.idle != [] {
      CountPop(p.idle, conn);
    }
  }

  lemma OtherStepKeeps(p: Pool, step: Step, conn: Conn)
    requires WaitsSound(p) && Conserved(p) && Places(p, conn) == One(conn < p.next) && Enabled(p, step)
    requires !step.Release? && !step.PushFresh? && !step.Check?
    ensures var q := Apply(p, step);
            WaitsSound(q) && Conserved(q) && Places(q, conn) == One(conn < q.next)
  {
    hide Count, Signals, Hands, Debts, Asleep;
    var i := step.i;
    var c := Apply(p, step).callers[i];
    Update(p.callers, i, c, conn);
    SleepersOther(p.callers, i, c);
    if step.Break? {
      CountAppend(p.freed, p.callers[i].conn, conn);
    }
  }

  lemma StepKeeps(p: Pool, step: Step)
    requires Inv(p) && Enabled(p, step)
    ensures Inv(Apply(p, step))
  {
    var q := Apply(p, step);
    StepKeepsAt(p, step, 0);
    forall conn: Conn ensures Places(q, conn) == One(conn < q.next) {
      StepKeepsAt(p, step, conn);
    }
  }

  // ---- whole runs ----

  ghost predicate IsRun(states: seq<Pool>, steps: seq<Step>) {
    && |states| == |steps| + 1
    && forall i :: 0 <= i < |steps| ==> Enabled(states[i], steps[i]) && states[i + 1] == Apply(states[i], steps[i])
  }

  lemma {:induction false} RunKeeps(states: seq<Pool>, steps: seq<Step>, k: nat)
    requires IsRun(states, steps) && Inv(states[0]) && k < |states|
    ensures Inv(states[k]) && states[k].created == states[0].created && |states[k].callers| == |states[0].callers|
  {
    if k > 0 {
      RunKeeps(states, steps, k - 1);
      StepKeeps(states[k - 1], steps[k - 1]);
    }
  }

  /** Pool conservation, in every interleaving: idle, held, being replaced and failed
      replacements add up to the connections first created, so live ones never exceed
      them. */
  lemma PoolConservation(created: nat, callers: nat, states: seq<Pool>, steps: seq<Step>, k: nat)
    requires IsRun(states, steps) && states[0] == Initial(created, callers) && k < |states|
    ensures var p := states[k];
            && |p.idle| + Debts(p.callers) + p.lost == created && |p.idle| + Debts(p.callers) <= created
            && |p.callers| == callers
  {
    InitialIsGood(created, callers);
    RunKeeps(states, steps, k);
  }

  /** Single ownership, in every interleaving: a connection is at most once in the idle
      queue, never both idle and in use, never in two hands, and never anywhere again once
      freed. */
  lemma SingleOwner(created: nat, callers: nat, states: seq<Pool>, steps: seq<Step>, k: nat, conn: Conn)
    requires IsRun(states, steps) && states[0] == Initial(created, callers) && k < |states|
    ensures var p := states[k];
            && Count(p.idle, conn) + Hands(p.callers, conn) + Count(p.freed, conn) <= 1
            && (conn < p.next ==> conn in p.idle || Hands(p.callers, conn) == 1 || conn in p.freed)
  {
    InitialIsGood(created, callers);
    RunKeeps(states, steps, k);
    assert Places(states[k], conn) == One(conn < states[k].next);
  }

  /** Waiting is sound, in every interleaving: no caller sleeps while more connections are
      idle than woken callers are coming for. */
  lemma WaitingIsSound(created: nat, callers: nat, states: seq<Pool>, steps: seq<Step>, k: nat)
    requires IsRun(states, steps) && states[0] == Initial(created, callers) && k < |states|
    ensures var p := states[k];
            !Asleep(p.callers) || |p.idle| <= Signals(p.callers)
  {
    InitialIsGood(created, callers);
    RunKeeps(states, steps, k);
  }

  /** The caller's time is up at this check. */
  predicate TimeIsUp(c: Caller, step: Step) { step.Check? && (c.Expired? || (c.Signalled? && step.late)) }

  /** `getConn` returns null, in every interleaving, exactly to a caller whose time is up
      while every connection of the pool is in use, being replaced or lost. */
  lemma NullMeansExhausted(created: nat, callers: nat, states: seq<Pool>, steps: seq<Step>, k: nat)
    requires IsRun(states, steps) && states[0] == Initial(created, callers) && k < |steps|
    ensures var p := states[k];
            states[k + 1].nulls != p.nulls <==>
            && steps[k].i < |p.callers| && TimeIsUp(p.callers[steps[k].i], steps[k])
            && Debts(p.callers) + p.lost == created
  {
    PoolConservation(created, callers, states, steps, k);
    assert Enabled(states[k], steps[k]) && states[k + 1] == Apply(states[k], steps[k]);
  }

  /** A caller between entry and return can always go on: the only one that waits for others
      is asleep, and its time will be up. */
  lemma CallerGoesOn(p: Pool, i: nat)
    requires i < |p.callers|
    ensures exists step: Step :: step.i == i && !step.Spurious? && Enabled(p, step)
  {
    var w := SomeSleeper(p.callers);
    var step := match p.callers[i]
      case Outside => Enter(i)
      case Waiting => Timeout(i)
      case Holding(_) => Release(i, w)
      case Replacing => Connect(i, false)
      case Fresh(_) => PushFresh(i, w)
      case _ => Check(i, false);
    assert Enabled(p, step);
  }

  lemma SomeSleeper(cs: seq<Caller>) returns (w: nat)
    ensures Wakes(cs, w)
  {
    w := 0;
    if i :| 0 <= i < |cs| && cs[i].Waiting? {
      w := i;
    }
  }

  /** Every wakeup reaches a sleeper, a timeout ends its wait, and nothing else stirs it. */
  lemma SleepersStir(p: Pool, step: Step, i: nat)
    requires Enabled(p, step) && i < |p.callers| && p.callers[i].Waiting?
    ensures var woken := step == Spurious(i) || ((step.Release? || step.PushFresh?) && step.w == i);
            |Apply(p, step).callers| == |p.callers| &&
            Apply(p, step).callers[i] == if step == Timeout(i) then Expired else if woken then Signalled else Waiting
  {
  }

  // ---- a command, step by step ----

  /** The steps of one Redis command that nobody disturbs: acquire, or wait in vain; then
      release, or free and replace. */
  function CommandSteps(pool: seq<Conn>, i: nat, reply: Option<Reply>, reconnects: bool): seq<Step> {
    [Enter(i), Check(i, false)] +
    if pool == [] then [Timeout(i), Check(i, true)]
    else if reply.Some? then [Release(i, 0)]
    else if reconnects then [Break(i), Connect(i, true), PushFresh(i, 0)]
    else [Break(i), Connect(i, false)]
  }

  /** The run leads to the queue and the freed connections of `AfterUse` and `FreedBy`, and
      leaves the caller outside. */
  ghost predicate Commands(p: Pool, i: nat, reply: Option<Reply>, reconnects: bool, states: seq<Pool>) {
    && IsRun(states, CommandSteps(p.idle, i, reply, reconnects)) && states[0] == p
    && var q := states[|states| - 1];
       && q.idle == AfterUse(p.idle, reply, if reconnects then Some(p.next) else None)
       && q.freed == p.freed + FreedBy(p.idle, reply) && q.callers == p.callers
       && q.nulls == p.nulls + One(p.idle == [])
  }

  lemma CommandInVain(p: Pool, i: nat, reply: Option<Reply>, reconnects: bool) returns (states: seq<Pool>)
    requires i < |p.callers| && p.callers[i].Outside? && p.idle == []
    ensures Commands(p, i, reply, reconnects, states)
  {
    var p1 := Apply(p, Enter(i));
    var p2 := Apply(p1, Check(i, false));
    var p3 := Apply(p2, Timeout(i));
    states := [p, p1, p2, p3, Apply(p3, Check(i, true))];
  }

  lemma CommandAnswered(p: Pool, i: nat, reply: Option<Reply>, reconnects: bool) returns (states: seq<Pool>)
    requires i < |p.callers| && p.callers[i].Outside? && !Asleep(p.callers) && p.idle != [] && reply.Some?
    ensures Commands(p, i, reply, reconnects, states)
  {
    var p1 := Apply(p, Enter(i));
    var p2 := Apply(p1, Check(i, false));
    NobodyAsleep(p, i, Holding(p.idle[0]));
    states := [p, p1, p2, Apply(p2, Release(i, 0))];
  }

  lemma CommandBroken(p: Pool, i: nat, reply: Option<Reply>, reconnects: bool) returns (states: seq<Pool>)
    requires i < |p.callers| && p.callers[i].Outside? && !Asleep(p.callers) && p.idle != [] && reply.None?
    ensures Commands(p, i, reply, reconnects, states)
  {
    var p1 := Apply(p, Enter(i));
    var p2 := Apply(p1, Check(i, false));
    var p3 := Apply(p2, Break(i));
    var p4 := Apply(p3, Connect(i, reconnects));
    NobodyAsleep(p, i, Fresh(p.next));
    states := [p, p1, p2, p3, p4] + if reconnects then [Apply(p4, PushFresh(i, 0))] else [];
  }

  /** A command that nobody disturbs does, step by step, what the methods of `RedisPool`
      promise. */
  lemma CommandIsSteps(p: Pool, i: nat, reply: Option<Reply>, reconnects: bool) returns (states: seq<Pool>)
    requires i < |p.callers| && p.callers[i].Outside? && !Asleep(p.callers)
    ensures Commands(p, i, reply, reconnects, states)
  {
    hide Commands;
    if p.idle == [] {
      states := CommandInVain(p, i, reply, reconnects);
    } else if reply.Some? {
      states := CommandAnswered(p, i, reply, reconnects);
    } else {
      states := CommandBroken(p, i, reply, reconnects);
    }
  }

  lemma NobodyAsleep(p: Pool, i: nat, c: Caller)
    requires i < |p.callers| && !Asleep(p.callers) && !c.Waiting?
    ensures !Asleep(p.callers[i := c])
  {
    SleepersOther(p.callers, i, c);
  }
}
