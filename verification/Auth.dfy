/** Register, login, profile and logout over the user table and the Redis store, with the
    individual store operations of many requests interleaved. */
module Auth {
  import opened Wrappers
  import opened Strings
  import opened Bearer

  const USER_TTL: nat := 300
  const SESSION_TTL: nat := 3600
  const MAX_USERNAME: nat := 64
  const MAX_PASSWORD: nat := 128

  // ---- keys ----

  predicate NulFree(s: string) { forall i :: 0 <= i < |s| ==> s[i] != '\0' }

  /** What is left of a string once it has passed through `c_str()`. */
  function CStr(s: string): (r: string)
    ensures NulFree(r) && (NulFree(s) ==> r == s)
  {
    if s == "" || s[0] == '\0' then "" else [s[0]] + CStr(s[1..])
  }

  const USER: string := "user:"
  const SESSION: string := "session:"

  /** The keys as the handlers build them and the store receives them. */
  function UserKey(name: string): string { CStr(USER + name) }

  function SessionKey(token: string): string { CStr(SESSION + token) }

  lemma {:induction false} KeysPassThroughCStr(prefix: string, s: string)
    requires NulFree(prefix)
    ensures CStr(prefix + s) == prefix + CStr(s)
  {
    if prefix == "" {
      assert prefix + s == s;
    } else {
      var p := prefix[1..];
      assert (prefix + s)[0] == prefix[0] && (prefix + s)[1..] == p + s;
      KeysPassThroughCStr(p, s);
      assert prefix + CStr(s) == [prefix[0]] + (p + CStr(s));
    }
  }

  lemma KeysSplit(s: string)
    ensures UserKey(s) == USER + CStr(s) && SessionKey(s) == SESSION + CStr(s)
  {
    hide CStr, NulFree;
    PrefixesAreNulFree();
    KeysPassThroughCStr(USER, s);
    KeysPassThroughCStr(SESSION, s);
  }

  lemma PrefixesAreNulFree()
    ensures NulFree(USER) && NulFree(SESSION)
  {
  }

  /** User and session keys never coincide, and within each kind keys coincide exactly when
      the names agree up to their first NUL. */
  lemma KeysAreApart(a: string, b: string)
    ensures UserKey(a) != SessionKey(b)
    ensures UserKey(a) == UserKey(b) <==> CStr(a) == CStr(b)
    ensures SessionKey(a) == SessionKey(b) <==> CStr(a) == CStr(b)
  {
    KeysSplit(a);
    KeysSplit(b);
    assert UserKey(a)[0] == 'u' && SessionKey(b)[0] == 's';
    assert UserKey(a)[5..] == CStr(a) && UserKey(b)[5..] == CStr(b);
    assert SessionKey(a)[8..] == CStr(a) && SessionKey(b)[8..] == CStr(b);
  }

  predicate IsUserKey(key: string) { |key| >= 5 && key[..5] == USER }

  predicate IsSessionKey(key: string) { |key| >= 8 && key[..8] == SESSION }

  lemma KeyKinds(name: string)
    ensures IsUserKey(UserKey(name)) && !IsSessionKey(UserKey(name)) && UserKey(name)[5..] == CStr(name)
    ensures IsSessionKey(SessionKey(name)) && !IsUserKey(SessionKey(name)) && SessionKey(name)[8..] == CStr(name)
  {
    KeysSplit(name);
    assert UserKey(name)[..5] == USER && SessionKey(name)[..8] == SESSION;
    assert UserKey(name)[0] == 'u' && SessionKey(name)[0] == 's';
    assert forall key :: IsSessionKey(key) ==> key[..8][0] == key[0];
    assert forall key :: IsUserKey(key) ==> key[..5][0] == key[0];
  }

  // ---- the system ----

  type Table = map<string, string>

  datatype Entry = Entry(value: string, expires: nat)

  type Store = map<string, Entry>

  datatype Kind =
    | Register(user: string, pass: string)
    | Login(user: string, pass: string)
    | Profile(token: string)
    | Logout(token: string)

  datatype Reply =
    | Registered | Conflict | LoggedIn(token: string) | UserNotFound | WrongPassword
    | ProfileOf(user: string) | LoggedOut | BadToken | Unavailable | DatabaseError

  datatype Pc =
    | CheckUser | InsertUser
    | CacheGet | QueryUser | CacheSet(stored: string) | Compare(stored: string) | StoreSession(token: string)
    | GetSession
    | DropSession
    | Done(reply: Reply)
    | Abandoned  // the server process ended first

  /** A request in the DB thread pool.  `start` and `end` are the instants between which it
      ran; `seen` and `at` are the length of the event log and the clock when it answered;
      `lost` says that the table's result set could not be fetched. */
  datatype Task = Task(kind: Kind, pc: Pc, start: nat, end: nat, seen: nat, at: nat, lost: bool)

  /** Every effective change of a session, in order. */
  datatype Event =
    | Stored(token: string, user: string, since: nat, expires: nat, author: nat)
    | Deleted(token: string, author: nat)

  datatype Sys = Sys(
    db: Table, redis: Store, now: nat,
    tasks: seq<Task>, log: seq<Event>,
    past: seq<Table>)  // the table at every instant so far, the last one being the present

  /** How an operation went: answered, or not; an unanswered one may still have happened; an
      answered one may carry an error reply, or a result set that `mysql_store_result` could
      not fetch.  `token` is what the generator drew. */
  datatype Luck = Luck(answered: bool, happened: bool, garbled: bool, token: string)

  datatype Step =
    | Begin(kind: Kind)
    | Advance(i: nat, luck: Luck)
    | Tick(seconds: nat)
    | Evict(key: string)

  /** Credentials that pass `checkCredentials`. */
  predicate Acceptable(user: string, pass: string) {
    0 < |user| <= MAX_USERNAME && 0 < |pass| <= MAX_PASSWORD
  }

  predicate Admissible(kind: Kind) {
    match kind
    case Register(user, pass) => Acceptable(user, pass)
    case Login(user, pass) => Acceptable(user, pass)
    case Profile(token) => token != ""
    case Logout(token) => token != ""
  }

  /** What gets as far as the database pool, with the limits of src/include/Config.h in
      numbers. */
  lemma AdmittedExactly(kind: Kind)
    ensures Admissible(kind) <==>
            if kind.Register? || kind.Login? then 1 <= |kind.user| <= 64 && 1 <= |kind.pass| <= 128
            else kind.token != ""
  {
  }

  function Entrance(kind: Kind): Pc {
    match kind
    case Register(_, _) => CheckUser
    case Login(_, _) => CacheGet
    case Profile(_) => GetSession
    case Logout(_) => DropSession
  }

  function Now(s: Sys): nat
    requires s.past != []
  {
    |s.past| - 1
  }

  function Live(s: Sys, key: string): Option<string> {
    if key in s.redis && s.now < s.redis[key].expires then Some(s.redis[key].value) else None
  }

  /** What one operation of task `i` does to the table, the store, the log and the task. */
  datatype Change = Change(db: Table, redis: Store, log: seq<Event>, task: Task)

  function Keep(s: Sys, task: Task): Change { Change(s.db, s.redis, s.log, task) }

  function Answer(s: Sys, task: Task, reply: Reply): Task
    requires s.past != []
  {
    task.(pc := Done(reply), end := Now(s), seen := |s.log|, at := s.now)
  }

  function RegisterOp(s: Sys, t: Task, luck: Luck): Change
    requires s.past != [] && t.kind.Register?
  {
    var user, pass := t.kind.user, t.kind.pass;
    if t.pc.CheckUser? then
      Keep(s, if !luck.answered then Answer(s, t, if luck.happened then DatabaseError else Unavailable)
              else if user in s.db && !luck.garbled then Answer(s, t, Conflict)
              else t.(pc := InsertUser))
    else
      // the username column is unique, so a second insert fails
      var db := if user !in s.db && (luck.answered || luck.happened) then s.db[user := pass] else s.db;
      Change(db, s.redis, s.log, Answer(s, t, if luck.answered && user !in s.db then Registered else DatabaseError))
  }

  function LoginOp(s: Sys, i: nat, t: Task, luck: Luck): Change
    requires s.past != [] && t.kind.Login?
  {
    var user, pass := t.kind.user, t.kind.pass;
    match t.pc
    case CacheGet =>
      var hit := if luck.answered && !luck.garbled then Live(s, UserKey(user)) else None;
      Keep(s, t.(pc := if hit.Some? && hit.value != "" then Compare(hit.value) else QueryUser))
    case QueryUser =>
      // the row arrives as a C string
      Keep(s, if !luck.answered then Answer(s, t, if luck.happened then DatabaseError else Unavailable)
              else if user in s.db && !luck.garbled then t.(pc := CacheSet(CStr(s.db[user])))
              else Answer(s, t, UserNotFound).(lost := luck.garbled))
    case CacheSet(stored) =>
      var entry := Entry(CStr(stored), s.now + USER_TTL);
      var redis := if luck.answered || luck.happened then s.redis[UserKey(user) := entry] else s.redis;
      Change(s.db, redis, s.log, t.(pc := Compare(stored)))
    case Compare(stored) =>
      Keep(s, if pass != stored then Answer(s, t, WrongPassword) else t.(pc := StoreSession(luck.token)))
    case StoreSession(token) =>
      var reply := if luck.answered then LoggedIn(token) else Unavailable;
      if luck.answered || luck.happened then
        var entry := Entry(CStr(user), s.now + SESSION_TTL);
        Change(s.db, s.redis[SessionKey(token) := entry],
               s.log + [Stored(CStr(token), entry.value, s.now, entry.expires, i)], Answer(s, t, reply))
      else Keep(s, Answer(s, t, reply))
    case _ => Keep(s, t)
  }

  function ProfileOp(s: Sys, t: Task, luck: Luck): Change
    requires s.past != [] && t.kind.Profile?
  {
    var hit := Live(s, SessionKey(t.kind.token));
    Keep(s, Answer(s, t, if !luck.answered then Unavailable
                         else if luck.garbled || hit.None? || hit.value == "" then BadToken
                         else ProfileOf(hit.value)))
  }

  function LogoutOp(s: Sys, i: nat, t: Task, luck: Luck): Change
    requires s.past != [] && t.kind.Logout?
  {
    var token := t.kind.token;
    var live := Live(s, SessionKey(token)).Some?;
    var reply := if !luck.answered then Unavailable else if live && !luck.garbled then LoggedOut else BadToken;
    if live && (if luck.answered then !luck.garbled else luck.happened) then
      Change(s.db, s.redis - {SessionKey(token)}, s.log + [Deleted(CStr(token), i)], Answer(s, t, reply))
    else Keep(s, Answer(s, t, reply))
  }

  function Op(s: Sys, i: nat, luck: Luck): Change
    requires s.past != [] && i < |s.tasks|
  {
    var t := s.tasks[i];
    match t.kind
    case Register(_, _) => RegisterOp(s, t, luck)
    case Login(_, _) => LoginOp(s, i, t, luck)
    case Profile(_) => ProfileOp(s, t, luck)
    case Logout(_) => LogoutOp(s, i, t, luck)
  }

  predicate Enabled(s: Sys, step: Step) {
    s.past != [] &&
    match step
    case Begin(kind) => Admissible(kind)
    case Advance(i, luck) => i < |s.tasks| && !s.tasks[i].pc.Done? && !s.tasks[i].pc.Abandoned? && Issued(luck.token)
    case Tick(_) => true
    case Evict(_) => true
  }

  function Apply(s: Sys, step: Step): Sys
    requires Enabled(s, step)
  {
    match step
    case Begin(kind) =>
      s.(tasks := s.tasks + [Task(kind, Entrance(kind), Now(s), 0, 0, 0, false)], past := s.past + [s.db])
    case Advance(i, luck) =>
      var c := Op(s, i, luck);
      Sys(c.db, c.redis, s.now, s.tasks[i := c.task], c.log, s.past + [c.db])
    case Tick(seconds) => s.(now := s.now + seconds, past := s.past + [s.db])
    case Evict(key) => s.(redis := s.redis - {key}, past := s.past + [s.db])
  }

  /** A server started over an existing table, with an empty store. */
  function Initial(db: Table): Sys { Sys(db, map[], 0, [], [], [db]) }

  /** The same table and store when the server is started again after some seconds: requests
      without an answer will never get one, and a new history begins. */
  function Restarted(s: Sys, seconds: nat): Sys {
    Sys(s.db, s.redis, s.now + seconds,
        seq(|s.tasks|, i requires 0 <= i < |s.tasks| => Task(s.tasks[i].kind, Abandoned, 0, 0, 0, 0, false)),
        s.log, [s.db])
  }

  // ---- what is claimed ----

  datatype Verdict = Accept | NotFound | Wrong

  /** Login without a cache: one look at the table. */
  function Direct(db: Table, user: string, pass: string): Verdict {
    if user !in db then NotFound else if db[user] != pass then Wrong else Accept
  }

  function VerdictOf(reply: Reply): Option<Verdict> {
    match reply
    case LoggedIn(_) => Some(Accept)
    case UserNotFound => Some(NotFound)
    case WrongPassword => Some(Wrong)
    case _ => None
  }

  /** Some name that agrees with this one up to a NUL has that password, up to a NUL. */
  predicate Traced(db: Table, name: string, stored: string) {
    exists v :: v in db && CStr(v) == CStr(name) && CStr(db[v]) == stored
  }

  /** What a login of that user can come to compare with: its own row, or whatever a login
      of a namesake left in the cache. */
  predicate Known(db: Table, user: string, stored: string) {
    (user in db && CStr(db[user]) == stored) || (stored != "" && Traced(db, user, stored))
  }

  /** Passing through C strings does that user no harm: its own password holds no NUL, and
      the namesakes' passwords, if they have any left, are its own. */
  predicate Faithful(db: Table, user: string) {
    && (user in db ==> NulFree(db[user]))
    && forall v :: v in db && CStr(v) == CStr(user) && CStr(db[v]) != "" ==> user in db && db[user] == CStr(db[v])
  }

  /** Every cached password is one of the table's. */
  predicate CacheAgrees(db: Table, redis: Store) {
    forall key :: key in redis && IsUserKey(key) ==> Traced(db, key[5..], redis[key].value)
  }

  /** The last event about a token. */
  function Last(log: seq<Event>, token: string): Option<Event> {
    if log == [] then None
    else if log[|log| - 1].token == token then Some(log[|log| - 1])
    else Last(log[..|log| - 1], token)
  }

  /** The event stored that session. */
  predicate Opened(last: Option<Event>, session: Entry) {
    && last.Some? && last.value.Stored?
    && last.value.user == session.value && last.value.expires == session.expires
  }

  /** Every session in the store is the outcome of the last event about its token. */
  predicate SessionsLogged(redis: Store, log: seq<Event>) {
    forall key :: key in redis && IsSessionKey(key) ==>
      Opened(Last(log, key[8..]), redis[key])
  }

  /** Every session was stored, for one lifetime, by a login of its user, up to a NUL, whose
      password matched. */
  predicate Verified(db: Table, tasks: seq<Task>, event: Event) {
    event.Stored? ==>
      && event.expires == event.since + SESSION_TTL
      && event.author < |tasks| && tasks[event.author].kind.Login?
      && var login := tasks[event.author].kind;
         CStr(login.user) == event.user && login.pass != "" && Known(db, login.user, login.pass)
  }

  predicate AllVerified(db: Table, tasks: seq<Task>, log: seq<Event>) {
    forall a :: 0 <= a < |log| ==> Verified(db, tasks, log[a])
  }

  /** Two deletions of one token have a store of it between them. */
  predicate StoreBetween(log: seq<Event>, a: nat, b: nat)
    requires a < b < |log|
  {
    exists c :: a < c < b && log[c].Stored? && log[c].token == log[a].token
  }

  predicate DeletesApart(log: seq<Event>) {
    forall a, b :: 0 <= a < b < |log| && log[a].Deleted? && log[b].Deleted? && log[a].token == log[b].token ==>
      StoreBetween(log, a, b)
  }

  /** What a task in progress knows, and what one that has answered may claim. */
  ghost predicate TaskOk(s: Sys, i: nat)
    requires i < |s.tasks| && s.past != []
  {
    var t := s.tasks[i];
    && Admissible(t.kind) && t.start <= Now(s) && (t.lost ==> t.pc == Done(UserNotFound))
    && match t.pc
       case CheckUser => t.kind.Register?
       case InsertUser => t.kind.Register?
       case CacheGet => t.kind.Login?
       case QueryUser => t.kind.Login?
       case CacheSet(stored) => t.kind.Login? && t.kind.user in s.db && CStr(s.db[t.kind.user]) == stored
       case Compare(stored) => t.kind.Login? && Known(s.db, t.kind.user, stored)
       case StoreSession(token) => t.kind.Login? && Known(s.db, t.kind.user, t.kind.pass) && Issued(token)
       case GetSession => t.kind.Profile?
       case DropSession => t.kind.Logout?
       case Abandoned => true
       case Done(reply) =>
         && t.start <= t.end <= Now(s) && t.seen <= |s.log| && Fits(t.kind, reply)
         && (reply.Registered? ==> t.kind.Register? && RegisteredHere(s, t))
         && (reply.Conflict? ==> t.kind.Register? && t.kind.user in s.past[t.end])
         && (t.kind.Login? && !t.lost ==> Grounded(s.past[t.end], t.kind.user, t.kind.pass, reply))
         && (t.kind.Login? && reply.LoggedIn? ==> StoredBy(s, i, reply.token))
         && (reply.ProfileOf? ==> t.kind.Profile? && SessionSeen(s, t, reply.user))
         && (reply.LoggedOut? ==> t.kind.Logout? && DeletedBy(s, i))
  }

  /** The replies that a kind of request can get. */
  predicate Fits(kind: Kind, reply: Reply) {
    match kind
    case Register(_, _) => reply.Registered? || reply.Conflict? || reply.Unavailable? || reply.DatabaseError?
    case Login(_, _) => VerdictOf(reply).Some? || reply.Unavailable? || reply.DatabaseError?
    case Profile(_) => reply.ProfileOf? || reply.BadToken? || reply.Unavailable?
    case Logout(_) => reply.LoggedOut? || reply.BadToken? || reply.Unavailable?
  }

  /** The reasons a login has for its verdict. */
  ghost predicate Grounded(db: Table, user: string, pass: string, reply: Reply) {
    && (reply.UserNotFound? ==> user !in db)
    && (reply.WrongPassword? ==> exists stored :: Known(db, user, stored) && stored != pass)
    && (reply.LoggedIn? ==> Known(db, user, pass))
  }

  /** The name was free when the task answered and has been taken, with its password, ever
      since. */
  predicate RegisteredHere(s: Sys, t: Task)
    requires t.kind.Register? && t.end < |s.past|
  {
    && t.kind.user !in s.past[t.end]
    && t.kind.user in s.db && s.db[t.kind.user] == t.kind.pass
    && forall k :: t.end < k < |s.past| ==> t.kind.user in s.past[k]
  }

  /** Task `i` stored that session, in the order of the log right after what it had seen. */
  predicate StoredBy(s: Sys, i: nat, token: string)
    requires i < |s.tasks|
  {
    var t := s.tasks[i];
    t.seen < |s.log| && s.log[t.seen].Stored? && s.log[t.seen].author == i && s.log[t.seen].token == token
  }

  predicate DeletedBy(s: Sys, i: nat)
    requires i < |s.tasks| && s.tasks[i].kind.Logout?
  {
    var t := s.tasks[i];
    t.seen < |s.log| && s.log[t.seen] == Deleted(CStr(t.kind.token), i)
  }

  /** When it answered, the last event about the token was a store of that user's session,
      not yet expired. */
  predicate SessionSeen(s: Sys, t: Task, user: string)
    requires t.kind.Profile?
  {
    t.seen <= |s.log| &&
    var last := Last(s.log[..t.seen], CStr(t.kind.token));
    last.Some? && last.value.Stored? && last.value.user == user && t.at < last.value.expires && last.value in s.log
  }

  ghost predicate TasksOk(s: Sys)
    requires s.past != []
  {
    forall i :: 0 <= i < |s.tasks| ==> TaskOk(s, i)
  }

  ghost predicate Inv(s: Sys) {
    && s.past != [] && s.past[|s.past| - 1] == s.db
    && CacheAgrees(s.db, s.redis) && SessionsLogged(s.redis, s.log)
    && AllVerified(s.db, s.tasks, s.log) && DeletesApart(s.log) && TasksOk(s)
  }

  // ---- the log ----

  lemma LastAppend(log: seq<Event>, event: Event, token: string)
    ensures Last(log + [event], token) == if event.token == token then Some(event) else Last(log, token)
  {
    assert (log + [event])[..|log|] == log;
  }

  lemma {:induction false} LastIndex(log: seq<Event>, token: string) returns (k: nat)
    requires Last(log, token).Some?
    ensures k < |log| && log[k] == Last(log, token).value && log[k].token == token
    ensures forall a :: k < a < |log| ==> log[a].token != token
  {
    var n := |log| - 1;
    if log[n].token == token {
      k := n;
    } else {
      k := LastIndex(log[..n], token);
    }
  }

  /** A deletion finds its session last stored. */
  predicate EndsSession(log: seq<Event>, event: Event) {
    event.Deleted? ==> Last(log, event.token).Some? && Last(log, event.token).value.Stored?
  }

  lemma DeleteKeepsApart(log: seq<Event>, event: Event)
    requires DeletesApart(log) && EndsSession(log, event)
    ensures DeletesApart(log + [event])
  {
    var all := log + [event];
    forall a, b | 0 <= a < b < |all| && all[a].Deleted? && all[b].Deleted? && all[a].token == all[b].token
      ensures StoreBetween(all, a, b)
    {
      if b < |log| {
        assert StoreBetween(log, a, b);
        var c :| a < c < b && log[c].Stored? && log[c].token == log[a].token;
        assert all[c].Stored? && all[c].token == all[a].token;
      } else {
        var k := LastIndex(log, event.token);
        assert log[a].token == event.token;
        assert all[k].Stored? && all[k].token == all[a].token && a < k;
      }
    }
  }

  // ---- one operation ----

  /** Rows are only ever added. */
  predicate Extends(a: Table, b: Table) { forall user :: user in a ==> user in b && b[user] == a[user] }

  lemma KnownStays(a: Table, b: Table, user: string, stored: string)
    requires Extends(a, b)
    ensures Traced(a, user, stored) ==> Traced(b, user, stored)
    ensures Known(a, user, stored) ==> Known(b, user, stored)
  {
    if Traced(a, user, stored) {
      var v :| v in a && CStr(v) == CStr(user) && CStr(a[v]) == stored;
      assert v in b && b[v] == a[v];
    }
  }

  lemma OpGrowsTable(s: Sys, i: nat, luck: Luck)
    requires Enabled(s, Advance(i, luck))
    ensures Extends(s.db, Op(s, i, luck).db)
  {
    hide Live, UserKey, SessionKey, CStr;
  }

  lemma OpKeepsCache(s: Sys, i: nat, luck: Luck)
    requires Inv(s) && Enabled(s, Advance(i, luck))
    ensures CacheAgrees(Op(s, i, luck).db, Op(s, i, luck).redis)
  {
    hide SessionsLogged, AllVerified, DeletesApart, Last, Live, LoginOp, Traced, Known;
    assert TaskOk(s, i);
    if s.tasks[i].kind.Login? {
      LoginKeepsCache(s, i, luck);
    } else {
      OpGrowsTable(s, i, luck);
      CacheStays(s.db, Op(s, i, luck).db, s.redis, Op(s, i, luck).redis);
    }
  }

  lemma CacheStays(db: Table, db': Table, redis: Store, redis': Store)
    requires CacheAgrees(db, redis) && Extends(db, db')
    requires forall key :: key in redis' ==> key in redis && redis'[key] == redis[key]
    ensures CacheAgrees(db', redis')
  {
    forall key | key in redis' && IsUserKey(key) ensures Traced(db', key[5..], redis'[key].value) {
      KnownStays(db, db', key[5..], redis[key].value);
    }
  }

  /** A login caches nothing but what it read from the table. */
  lemma LoginKeepsCache(s: Sys, i: nat, luck: Luck)
    requires CacheAgrees(s.db, s.redis) && s.past != [] && i < |s.tasks| && TaskOk(s, i) && s.tasks[i].kind.Login?
    ensures var c := LoginOp(s, i, s.tasks[i], luck); CacheAgrees(c.db, c.redis)
  {
    hide Live, Last, Grounded, SessionSeen, RegisteredHere;
    var t := s.tasks[i];
    KeyKinds(t.kind.user);
    if t.pc.CacheSet? {
      assert Traced(s.db, t.kind.user, t.pc.stored);
      assert Traced(s.db, CStr(t.kind.user), t.pc.stored);
    }
    if t.pc.StoreSession? {
      KeyKinds(t.pc.token);
    }
  }

  lemma OpKeepsSessions(s: Sys, i: nat, luck: Luck)
    requires Inv(s) && Enabled(s, Advance(i, luck))
    ensures SessionsLogged(Op(s, i, luck).redis, Op(s, i, luck).log)
  {
    var t := s.tasks[i];
    assert TaskOk(s, i);
    var c := Op(s, i, luck);
    match t.kind
    case Login(user, _) => LoginKeepsSessions(s, i, luck);
    case Logout(token) => LogoutKeepsSessions(s, i, luck);
    case _ =>
  }

  lemma LoginKeepsSessions(s: Sys, i: nat, luck: Luck)
    requires SessionsLogged(s.redis, s.log) && s.past != [] && i < |s.tasks| && s.tasks[i].kind.Login?
    ensures var c := LoginOp(s, i, s.tasks[i], luck); SessionsLogged(c.redis, c.log)
  {
    hide Last, Live, UserKey, SessionKey, CStr, NulFree;
    var t := s.tasks[i];
    var c := LoginOp(s, i, t, luck);
    KeyKinds(t.kind.user);
    if c.log != s.log {
      var event := c.log[|s.log|];
      var key := SessionKey(t.pc.token);
      KeyKinds(t.pc.token);
      forall k | k in c.redis && IsSessionKey(k)
        ensures Opened(Last(c.log, k[8..]), c.redis[k])
      {
        LastAppend(s.log, event, k[8..]);
        SameSuffix(k, key);
      }
    }
  }

  /** A session key is its prefix and its token. */
  lemma SameSuffix(a: string, b: string)
    requires IsSessionKey(a) && IsSessionKey(b)
    ensures a[8..] == b[8..] <==> a == b
  {
    assert a == a[..8] + a[8..] && b == b[..8] + b[8..];
  }

  lemma LogoutKeepsSessions(s: Sys, i: nat, luck: Luck)
    requires SessionsLogged(s.redis, s.log) && s.past != [] && i < |s.tasks| && s.tasks[i].kind.Logout?
    ensures var c := LogoutOp(s, i, s.tasks[i], luck); SessionsLogged(c.redis, c.log)
  {
    hide Last, Live;
    var t := s.tasks[i];
    var c := LogoutOp(s, i, t, luck);
    if c.log != s.log {
      var event := c.log[|s.log|];
      var key := SessionKey(t.kind.token);
      KeyKinds(t.kind.token);
      forall k | k in c.redis && IsSessionKey(k)
        ensures Opened(Last(c.log, k[8..]), c.redis[k])
      {
        LastAppend(s.log, event, k[8..]);
        SameSuffix(k, key);
      }
    }
  }

  /** What an operation adds to the log is a verified store, or the deletion of a session
      last stored. */
  lemma OpLogs(s: Sys, i: nat, luck: Luck)
    requires Inv(s) && Enabled(s, Advance(i, luck))
    ensures var c := Op(s, i, luck);
            c.log == s.log ||
            (exists event :: c.log == s.log + [event] && Verified(s.db, s.tasks, event) && EndsSession(s.log, event))
  {
    hide CacheAgrees, AllVerified, DeletesApart, Last;
    assert TaskOk(s, i);
    var t := s.tasks[i];
    var c := Op(s, i, luck);
    if c.log != s.log {
      var event := c.log[|s.log|];
      assert c.log == s.log + [event];
      if t.kind.Logout? {
        KeyKinds(t.kind.token);
        assert SessionKey(t.kind.token) in s.redis;
      }
      assert Verified(s.db, s.tasks, event);
    }
  }

  // ---- tasks ----

  /** The table, the log and the history only grow. */
  predicate Evolves(s: Sys, r: Sys) {
    && Extends(s.db, r.db) && s.past != [] && |s.past| <= |r.past| && |s.log| <= |r.log|
    && (forall k :: 0 <= k < |s.past| ==> r.past[k] == s.past[k])
    && (forall k :: |s.past| <= k < |r.past| ==> Extends(s.db, r.past[k]))
    && s.log == r.log[..|s.log|]
  }

  lemma TaskStable(s: Sys, r: Sys, j: nat)
    requires Evolves(s, r) && j < |s.tasks| && j < |r.tasks| && r.tasks[j] == s.tasks[j] && TaskOk(s, j)
    ensures TaskOk(r, j)
  {
    hide Last, Grounded, Known;
    var t := s.tasks[j];
    if t.pc.Compare? {
      KnownStays(s.db, r.db, t.kind.user, t.pc.stored);
    } else if t.pc.StoreSession? {
      KnownStays(s.db, r.db, t.kind.user, t.kind.pass);
    }
    if t.pc.Done? && t.pc.reply.ProfileOf? {
      assert s.log[..t.seen] == r.log[..t.seen];
      var last := Last(s.log[..t.seen], CStr(t.kind.token)).value;
      assert forall a :: 0 <= a < |s.log| ==> r.log[a] == s.log[a];
      assert last in r.log;
    }
  }

  lemma OpEvolves(s: Sys, i: nat, luck: Luck)
    requires Inv(s) && Enabled(s, Advance(i, luck))
    ensures Evolves(s, Apply(s, Advance(i, luck)))
  {
    hide CacheAgrees, SessionsLogged, AllVerified, DeletesApart, TasksOk, Op, Last, Verified;
    OpGrowsTable(s, i, luck);
    OpLogs(s, i, luck);
  }

  lemma OpKeepsTask(s: Sys, i: nat, luck: Luck)
    requires Inv(s) && Enabled(s, Advance(i, luck))
    ensures TaskOk(Apply(s, Advance(i, luck)), i)
  {
    assert TaskOk(s, i);
    match s.tasks[i].kind
    case Register(_, _) => RegisterKeepsTask(s, i, luck);
    case Login(_, _) => LoginKeepsTask(s, i, luck);
    case Profile(_) => ProfileKeepsTask(s, i, luck);
    case Logout(_) => LogoutKeepsTask(s, i, luck);
  }

  lemma RegisterKeepsTask(s: Sys, i: nat, luck: Luck)
    requires Inv(s) && Enabled(s, Advance(i, luck)) && s.tasks[i].kind.Register?
    ensures TaskOk(Apply(s, Advance(i, luck)), i)
  {
    hide CacheAgrees, SessionsLogged, AllVerified, DeletesApart, Last;
    assert TaskOk(s, i);
  }

  lemma LoginKeepsTask(s: Sys, i: nat, luck: Luck)
    requires Inv(s) && Enabled(s, Advance(i, luck)) && s.tasks[i].kind.Login?
    ensures TaskOk(Apply(s, Advance(i, luck)), i)
  {
    assert TaskOk(s, i);
    if s.tasks[i].pc.CacheGet? {
      CacheGetKeepsTask(s, i, luck);
    } else if s.tasks[i].pc.StoreSession? {
      StoreSessionKeepsTask(s, i, luck);
    } else {
      OtherLoginKeepsTask(s, i, luck);
    }
  }

  /** A cache hit is the table's password. */
  lemma CacheGetKeepsTask(s: Sys, i: nat, luck: Luck)
    requires Inv(s) && Enabled(s, Advance(i, luck)) && s.tasks[i].kind.Login? && s.tasks[i].pc.CacheGet?
    ensures TaskOk(Apply(s, Advance(i, luck)), i)
  {
    hide SessionsLogged, AllVerified, DeletesApart, Last, SessionSeen, RegisteredHere, Grounded, Traced, UserKey;
    assert TaskOk(s, i);
    var user := s.tasks[i].kind.user;
    KeyKinds(user);
    if UserKey(user) in s.redis {
      TracedTruncated(s.db, user, s.redis[UserKey(user)].value);
    }
  }

  lemma TracedTruncated(db: Table, user: string, stored: string)
    requires Traced(db, CStr(user), stored)
    ensures Traced(db, user, stored)
  {
  }

  lemma StoreSessionKeepsTask(s: Sys, i: nat, luck: Luck)
    requires Inv(s) && Enabled(s, Advance(i, luck)) && s.tasks[i].kind.Login? && s.tasks[i].pc.StoreSession?
    ensures TaskOk(Apply(s, Advance(i, luck)), i)
  {
    hide CacheAgrees, SessionsLogged, AllVerified, DeletesApart, Last, SessionSeen, RegisteredHere;
    assert TaskOk(s, i);
    var r := Apply(s, Advance(i, luck));
    assert r.past[|s.past| - 1] == s.db;
  }

  lemma OtherLoginKeepsTask(s: Sys, i: nat, luck: Luck)
    requires Inv(s) && Enabled(s, Advance(i, luck)) && s.tasks[i].kind.Login?
    requires !s.tasks[i].pc.CacheGet? && !s.tasks[i].pc.StoreSession?
    ensures TaskOk(Apply(s, Advance(i, luck)), i)
  {
    hide CacheAgrees, SessionsLogged, AllVerified, DeletesApart, Last, SessionSeen, RegisteredHere, Live, UserKey, CStr;
    assert TaskOk(s, i);
    var r := Apply(s, Advance(i, luck));
    assert r.past[|s.past| - 1] == s.db;
  }

  lemma ProfileKeepsTask(s: Sys, i: nat, luck: Luck)
    requires Inv(s) && Enabled(s, Advance(i, luck)) && s.tasks[i].kind.Profile?
    ensures TaskOk(Apply(s, Advance(i, luck)), i)
  {
    hide CacheAgrees, AllVerified, DeletesApart, Last;
    assert TaskOk(s, i);
    var t := s.tasks[i];
    var key := SessionKey(t.kind.token);
    KeyKinds(t.kind.token);
    var r := Apply(s, Advance(i, luck));
    if r.tasks[i].pc.reply.ProfileOf? {
      assert key in s.redis && IsSessionKey(key);
      assert s.log[..|s.log|] == s.log;
      var k := LastIndex(s.log, CStr(t.kind.token));
      assert s.log[k] in r.log;
    }
  }

  lemma LogoutKeepsTask(s: Sys, i: nat, luck: Luck)
    requires Inv(s) && Enabled(s, Advance(i, luck)) && s.tasks[i].kind.Logout?
    ensures TaskOk(Apply(s, Advance(i, luck)), i)
  {
    hide CacheAgrees, SessionsLogged, AllVerified, DeletesApart, Last;
    assert TaskOk(s, i);
  }

  // ---- every step ----

  lemma LogStaysVerified(s: Sys, r: Sys)
    requires AllVerified(s.db, s.tasks, s.log) && Extends(s.db, r.db) && |s.tasks| <= |r.tasks|
    requires forall j :: 0 <= j < |s.tasks| ==> r.tasks[j].kind == s.tasks[j].kind
    ensures AllVerified(r.db, r.tasks, s.log)
  {
    forall a | 0 <= a < |s.log| ensures Verified(r.db, r.tasks, s.log[a]) {
      assert Verified(s.db, s.tasks, s.log[a]);
      if s.log[a].Stored? {
        var login := s.tasks[s.log[a].author].kind;
        KnownStays(s.db, r.db, login.user, login.pass);
      }
    }
  }

  lemma AdvanceKeepsLog(s: Sys, i: nat, luck: Luck)
    requires Inv(s) && Enabled(s, Advance(i, luck))
    ensures var r := Apply(s, Advance(i, luck));
            AllVerified(r.db, r.tasks, r.log) && DeletesApart(r.log)
  {
    hide CacheAgrees, SessionsLogged, AllVerified, DeletesApart, Last, TasksOk, Op, TaskOk;
    var r := Apply(s, Advance(i, luck));
    OpGrowsTable(s, i, luck);
    OpKeepsKind(s, i, luck);
    LogStaysVerified(s, r);
    OpLogs(s, i, luck);
    if r.log != s.log {
      var event :| r.log == s.log + [event] && Verified(s.db, s.tasks, event) && EndsSession(s.log, event);
      DeleteKeepsApart(s.log, event);
      VerifiedAppend(r, s.log, event);
    }
  }

  lemma VerifiedAppend(r: Sys, log: seq<Event>, event: Event)
    requires AllVerified(r.db, r.tasks, log) && Verified(r.db, r.tasks, event)
    ensures AllVerified(r.db, r.tasks, log + [event])
  {
  }

  lemma OpKeepsKind(s: Sys, i: nat, luck: Luck)
    requires s.past != [] && i < |s.tasks|
    ensures Op(s, i, luck).task.kind == s.tasks[i].kind
  {
    hide Live, UserKey, SessionKey, CStr;
  }

  lemma AdvanceKeeps(s: Sys, i: nat, luck: Luck)
    requires Inv(s) && Enabled(s, Advance(i, luck))
    ensures Inv(Apply(s, Advance(i, luck)))
  {
    hide CacheAgrees, SessionsLogged, AllVerified, DeletesApart, Last, Op, TaskOk, Evolves;
    var r := Apply(s, Advance(i, luck));
    OpGrowsTable(s, i, luck);
    OpKeepsCache(s, i, luck);
    OpKeepsSessions(s, i, luck);
    AdvanceKeepsLog(s, i, luck);
    OpEvolves(s, i, luck);
    OpKeepsTask(s, i, luck);
    forall j | 0 <= j < |r.tasks| && j != i ensures TaskOk(r, j) {
      TaskStable(s, r, j);
    }
  }

  lemma BeginKeeps(s: Sys, kind: Kind)
    requires Inv(s) && Enabled(s, Begin(kind))
    ensures Inv(Apply(s, Begin(kind)))
  {
    hide CacheAgrees, SessionsLogged, AllVerified, DeletesApart, Last;
    var r := Apply(s, Begin(kind));
    LogStaysVerified(s, r);
    assert s.log == r.log[..|s.log|];
    forall j | 0 <= j < |r.tasks| ensures TaskOk(r, j) {
      if j < |s.tasks| {
        assert TaskOk(s, j);
        TaskStable(s, r, j);
      }
    }
  }

  lemma EnvironmentKeeps(s: Sys, step: Step)
    requires Inv(s) && Enabled(s, step) && (step.Tick? || step.Evict?)
    ensures Inv(Apply(s, step))
  {
    hide AllVerified, DeletesApart, Last, TaskOk;
    var r := Apply(s, step);
    assert s.log == r.log[..|s.log|];
    forall j | 0 <= j < |r.tasks| ensures TaskOk(r, j) {
      assert TaskOk(s, j);
      TaskStable(s, r, j);
    }
  }

  lemma StepKeeps(s: Sys, step: Step)
    requires Inv(s) && Enabled(s, step)
    ensures Inv(Apply(s, step))
  {
    match step
    case Begin(kind) => BeginKeeps(s, kind);
    case Advance(i, luck) => AdvanceKeeps(s, i, luck);
    case _ => EnvironmentKeeps(s, step);
  }

  // ---- whole runs ----

  ghost predicate IsRun(states: seq<Sys>, steps: seq<Step>) {
    && |states| == |steps| + 1
    && forall i :: 0 <= i < |steps| ==> Enabled(states[i], steps[i]) && states[i + 1] == Apply(states[i], steps[i])
  }

  /** Where a server may start: over any table, with whatever earlier servers, all of whose
      requests are over, left in the store. */
  ghost predicate Inherited(s: Sys) {
    && s.past == [s.db]
    && (forall i :: 0 <= i < |s.tasks| ==>
          Admissible(s.tasks[i].kind) && s.tasks[i].pc.Abandoned? && s.tasks[i].start == 0 && !s.tasks[i].lost)
    && CacheAgrees(s.db, s.redis) && SessionsLogged(s.redis, s.log)
    && AllVerified(s.db, s.tasks, s.log) && DeletesApart(s.log)
  }

  lemma InitialIsStart(db: Table)
    ensures Inherited(Initial(db))
  {
  }

  ghost predicate ServerRun(states: seq<Sys>, steps: seq<Step>) {
    IsRun(states, steps) && Inherited(states[0])
  }

  /** Servers follow each other: whenever one ends, the next may start from what it leaves. */
  lemma RestartIsStart(states: seq<Sys>, steps: seq<Step>, k: nat, seconds: nat)
    requires ServerRun(states, steps) && k < |states|
    ensures var s, r := states[k], Restarted(states[k], seconds);
            && Inherited(r) && r.db == s.db && r.redis == s.redis && r.log == s.log && r.now == s.now + seconds
            && |r.tasks| == |s.tasks| && forall i :: 0 <= i < |s.tasks| ==> r.tasks[i].kind == s.tasks[i].kind
  {
    hide CacheAgrees, SessionsLogged, AllVerified, DeletesApart, Apply, Known, CStr;
    RunKeeps(states, steps, k);
    var s := states[k];
    forall i | 0 <= i < |s.tasks| ensures Admissible(s.tasks[i].kind) {
      assert TaskOk(s, i);
    }
    LogStaysVerified(s, Restarted(s, seconds));
  }

  lemma {:induction false} RunKeeps(states: seq<Sys>, steps: seq<Step>, k: nat)
    requires ServerRun(states, steps) && k < |states|
    ensures Inv(states[k])
  {
    hide CacheAgrees, SessionsLogged, AllVerified, DeletesApart, Apply;
    if k > 0 {
      RunKeeps(states, steps, k - 1);
      StepKeeps(states[k - 1], steps[k - 1]);
    } else {
      InheritedIsGood(states[0]);
    }
  }

  lemma InheritedIsGood(s: Sys)
    requires Inherited(s)
    ensures Inv(s)
  {
    hide CacheAgrees, SessionsLogged, AllVerified, DeletesApart;
  }

  /** The cache agrees with the table in every reachable state: a cached password is, up to a
      NUL, the table's for that name or a namesake; for a user the C strings do no harm it is
      the table's own, unless it is empty, which counts as a miss. */
  lemma CacheAgreesWithTable(states: seq<Sys>, steps: seq<Step>, k: nat, user: string)
    requires ServerRun(states, steps) && k < |states| && UserKey(user) in states[k].redis
    ensures var s, cached := states[k], states[k].redis[UserKey(user)].value;
            && Traced(s.db, user, cached)
            && (Faithful(s.db, user) && cached != "" ==> user in s.db && s.db[user] == cached)
  {
    hide UserKey, CStr, SessionsLogged, AllVerified, DeletesApart, TasksOk;
    RunKeeps(states, steps, k);
    KeyKinds(user);
    TracedTruncated(states[k].db, user, states[k].redis[UserKey(user)].value);
  }

  /** The recorded history is the run's own: the instant numbered `n` is the table of the
      n-th state. */
  lemma {:induction false} PastIsHistory(states: seq<Sys>, steps: seq<Step>, k: nat, n: nat)
    requires ServerRun(states, steps) && n <= k < |states|
    ensures |states[k].past| == k + 1 && states[k].past[n] == states[n].db
    decreases k
  {
    if k > 0 {
      assert Enabled(states[k - 1], steps[k - 1]) && states[k] == Apply(states[k - 1], steps[k - 1]);
      PastIsHistory(states, steps, k - 1, if n < k then n else 0);
    }
  }

  /** And so are a task's instants: it began with the step after `start` and answered with
      the step after `end`.  An earlier server's task never answers. */
  lemma {:induction false} InstantsAreHistory(states: seq<Sys>, steps: seq<Step>, k: nat, i: nat)
    requires ServerRun(states, steps) && k < |states| && i < |states[k].tasks|
    ensures var t := states[k].tasks[i];
            if i < |states[0].tasks| then t.pc.Abandoned?
            else
              && t.start < k && |states[t.start].tasks| == i && |states[t.start + 1].tasks| == i + 1
              && (t.pc.Done? ==>
                    && t.start < t.end < k && i < |states[t.end].tasks| && !states[t.end].tasks[i].pc.Done?
                    && i < |states[t.end + 1].tasks| && states[t.end + 1].tasks[i] == t
                    && AnsweredIn(states[t.end], t))
    decreases k
  {
    hide Apply, Enabled;
    if k > 0 {
      var s, step := states[k - 1], steps[k - 1];
      assert Enabled(s, step) && states[k] == Apply(s, step);
      PastIsHistory(states, steps, k - 1, 0);
      StepTimes(s, step, i);
      TasksGrow(states, steps, k - 1);
      if i < |s.tasks| {
        InstantsAreHistory(states, steps, k - 1, i);
      }
    }
  }

  lemma {:induction false} TasksGrow(states: seq<Sys>, steps: seq<Step>, k: nat)
    requires IsRun(states, steps) && k < |states|
    ensures |states[0].tasks| <= |states[k].tasks|
  {
    if k > 0 {
      hide Op;
      TasksGrow(states, steps, k - 1);
      assert Enabled(states[k - 1], steps[k - 1]) && states[k] == Apply(states[k - 1], steps[k - 1]);
    }
  }

  /** The task was answered by a step from this state, at its time and with its log. */
  predicate AnsweredIn(s: Sys, t: Task) { s.past != [] && t.end == Now(s) && t.at == s.now && t.seen == |s.log| }

  /** One step begins at most one task and answers at most one, now. */
  lemma StepTimes(s: Sys, step: Step, i: nat)
    requires Enabled(s, step) && i < |Apply(s, step).tasks|
    ensures var r := Apply(s, step);
            if i < |s.tasks| then
              && r.tasks[i].start == s.tasks[i].start
              && (s.tasks[i].pc.Done? || s.tasks[i].pc.Abandoned? ==> r.tasks[i] == s.tasks[i])
              && (r.tasks[i].pc.Done? && !s.tasks[i].pc.Done? ==> AnsweredIn(s, r.tasks[i]))
            else i == |s.tasks| && |r.tasks| == i + 1 && r.tasks[i].start == Now(s) && !r.tasks[i].pc.Done?
  {
    hide Op;
    if step.Advance? {
      OpTimes(s, step.i, step.luck);
    }
  }

  lemma OpTimes(s: Sys, i: nat, luck: Luck)
    requires s.past != [] && i < |s.tasks|
    ensures var t := Op(s, i, luck).task;
            t.start == s.tasks[i].start && (t.pc.Done? && !s.tasks[i].pc.Done? ==> AnsweredIn(s, t))
  {
    hide LoginOp, Live;
    if s.tasks[i].kind.Login? {
      LoginTimes(s, i, luck);
    }
  }

  lemma LoginTimes(s: Sys, i: nat, luck: Luck)
    requires s.past != [] && i < |s.tasks| && s.tasks[i].kind.Login?
    ensures var t := LoginOp(s, i, s.tasks[i], luck).task;
            t.start == s.tasks[i].start && (t.pc.Done? && !s.tasks[i].pc.Done? ==> AnsweredIn(s, t))
  {
    hide Live, UserKey, SessionKey, CStr;
  }

  lemma {:induction false} TablesGrow(states: seq<Sys>, steps: seq<Step>, m: nat, k: nat)
    requires IsRun(states, steps) && m <= k < |states|
    ensures Extends(states[m].db, states[k].db)
    decreases k - m
  {
    if m < k {
      hide Op;
      TablesGrow(states, steps, m, k - 1);
      var s, step := states[k - 1], steps[k - 1];
      assert Enabled(s, step) && states[k] == Apply(s, step);
      if step.Advance? {
        OpGrowsTable(s, step.i, step.luck);
      }
    }
  }

  /** For such a user a grounded verdict is the direct one. */
  lemma GroundedIsDirect(db: Table, user: string, pass: string, reply: Reply)
    requires Faithful(db, user) && Grounded(db, user, pass, reply) && VerdictOf(reply).Some? && pass != ""
    ensures VerdictOf(reply) == Some(Direct(db, user, pass))
  {
    if reply.WrongPassword? {
      var stored :| Known(db, user, stored) && stored != pass;
      KnownIsOwn(db, user, stored);
    } else if reply.LoggedIn? {
      KnownIsOwn(db, user, pass);
    }
  }

  lemma KnownIsOwn(db: Table, user: string, stored: string)
    requires Faithful(db, user) && Known(db, user, stored)
    ensures user in db && db[user] == stored
  {
  }

  /** Some instant strictly inside the request, at which a direct lookup says the same. */
  ghost predicate DirectInside(states: seq<Sys>, t: Task) {
    && t.kind.Login? && t.pc.Done?
    && exists m ::
         && t.start < m <= t.end && m < |states|
         && VerdictOf(t.pc.reply) == Some(Direct(states[m].db, t.kind.user, t.kind.pass))
  }

  /** Cached login refines uncached login: over all interleavings, expiries and store
      failures, whenever a login ends with accept, not-found or wrong-password, and its user
      is one the C strings do no harm, that is what a direct look at the table says at an
      instant of the run that lies inside the request, after it began and before it
      answered, if and only if the table's result set was fetched, or the name was not yet
      in the table when the request began. */
  lemma CachedLoginRefinesDirect(states: seq<Sys>, steps: seq<Step>, k: nat, i: nat)
    requires ServerRun(states, steps) && k < |states| && i < |states[k].tasks|
    requires var t := states[k].tasks[i]; t.kind.Login? && t.pc.Done? && VerdictOf(t.pc.reply).Some?
    ensures var t := states[k].tasks[i];
            && t.start < t.end < k && |states[t.start].tasks| == i
            && i < |states[t.end].tasks| && !states[t.end].tasks[i].pc.Done?
            && (Faithful(states[t.end].db, t.kind.user) ==>
                  (DirectInside(states, t) <==> (t.lost ==> t.kind.user !in states[t.start + 1].db)))
  {
    hide CacheAgrees, SessionsLogged, DeletesApart, AllVerified, Last, Apply, Enabled, Faithful, Grounded, Known;
    RunKeeps(states, steps, k);
    assert TaskOk(states[k], i);
    var t := states[k].tasks[i];
    var user, pass := t.kind.user, t.kind.pass;
    InstantsAreHistory(states, steps, k, i);
    PastIsHistory(states, steps, k, t.end);
    if Faithful(states[t.end].db, user) {
      if !t.lost {
        GroundedIsDirect(states[t.end].db, user, pass, t.pc.reply);
      } else if user !in states[t.start + 1].db {
        assert VerdictOf(t.pc.reply) == Some(Direct(states[t.start + 1].db, user, pass));
      } else {
        forall m | t.start < m <= t.end ensures Direct(states[m].db, user, pass) != NotFound {
          TablesGrow(states, steps, t.start + 1, m);
        }
      }
    }
  }

  /** The exception is real: a registered user whose result set is lost is told that there
      is no such user. */
  lemma LostResultMisleads() returns (states: seq<Sys>, steps: seq<Step>)
    ensures ServerRun(states, steps) && states[0] == Initial(map["u" := "p"]) && |states| == 4 && |states[3].tasks| == 1
    ensures var t := states[3].tasks[0];
            && t.kind == Login("u", "p") && t.pc == Done(UserNotFound) && t.lost
            && Direct(states[3].db, "u", "p") == Accept
  {
    var token := seq(TOKEN_LEN, _ => 'a');
    var fine, garbled := Luck(true, false, false, token), Luck(true, false, true, token);
    steps := [Begin(Login("u", "p")), Advance(0, fine), Advance(0, garbled)];
    var s0 := Initial(map["u" := "p"]);
    var s1 := Apply(s0, steps[0]);
    var s2 := Apply(s1, steps[1]);
    var s3 := Apply(s2, steps[2]);
    states := [s0, s1, s2, s3];
  }

  // ---- one request at a time ----

  function Token(): (token: string)
    ensures Issued(token)
  {
    seq(TOKEN_LEN, _ => 'a')
  }

  /** The next operation of task `i`, answered; the generator draws `Token()`. */
  function Do(i: nat): Step { Advance(i, Luck(true, false, false, Token())) }

  datatype Effect = Effect(reply: Reply, db: Table, redis: Store)

  /** What a request does when it runs alone and everything works, said at once. */
  function Sequential(s: Sys, kind: Kind): Effect {
    match kind
    case Register(user, pass) =>
      if user in s.db then Effect(Conflict, s.db, s.redis) else Effect(Registered, s.db[user := pass], s.redis)
    case Login(user, pass) =>
      var cached := Live(s, UserKey(user));
      var hit := cached.Some? && cached.value != "";
      if !hit && user !in s.db then Effect(UserNotFound, s.db, s.redis)
      else
        var stored := if hit then cached.value else CStr(s.db[user]);
        var redis := if hit then s.redis else s.redis[UserKey(user) := Entry(stored, s.now + 300)];
        if pass != stored then Effect(WrongPassword, s.db, redis)
        else Effect(LoggedIn(Token()), s.db, redis[SessionKey(Token()) := Entry(CStr(user), s.now + 3600)])
    case Profile(token) =>
      var session := Live(s, SessionKey(token));
      Effect(if session.Some? && session.value != "" then ProfileOf(session.value) else BadToken, s.db, s.redis)
    case Logout(token) =>
      if Live(s, SessionKey(token)).Some? then Effect(LoggedOut, s.db, s.redis - {SessionKey(token)})
      else Effect(BadToken, s.db, s.redis)
  }

  /** Nothing but one more task, the table and the store has changed. */
  predicate Grown(s: Sys, r: Sys, kind: Kind, pc: Pc, db: Table, redis: Store) {
    && r.past != [] && r.now == s.now && r.db == db && r.redis == redis
    && |r.tasks| == |s.tasks| + 1 && r.tasks[..|s.tasks|] == s.tasks
    && r.tasks[|s.tasks|].kind == kind && r.tasks[|s.tasks|].pc == pc && !r.tasks[|s.tasks|].lost
  }

  /** A run of that request from `s`, and nothing else. */
  ghost predicate Alone(s: Sys, kind: Kind, states: seq<Sys>, steps: seq<Step>) {
    && IsRun(states, steps) && |steps| > 0 && states[0] == s && steps[0] == Begin(kind)
    && forall n :: 1 <= n < |steps| ==> steps[n] == Do(|s.tasks|)
  }

  lemma BeginAlone(s: Sys, kind: Kind)
    requires s.past != [] && Admissible(kind)
    ensures Enabled(s, Begin(kind)) && Grown(s, Apply(s, Begin(kind)), kind, Entrance(kind), s.db, s.redis)
    ensures Alone(s, kind, [s, Apply(s, Begin(kind))], [Begin(kind)])
  {
  }

  /** One more operation of a request that runs alone. */
  lemma DoAlone(s: Sys, kind: Kind, states: seq<Sys>, steps: seq<Step>, pc: Pc, db: Table, redis: Store)
    requires Alone(s, kind, states, steps) && Grown(s, states[|steps|], kind, pc, db, redis)
    requires !pc.Done? && !pc.Abandoned?
    ensures var r, i := states[|steps|], |s.tasks|;
            && Enabled(r, Do(i))
            && Alone(s, kind, states + [Apply(r, Do(i))], steps + [Do(i)])
  {
    hide Op;
  }

  lemma OpAlone(s: Sys, r: Sys, kind: Kind, pc: Pc, db: Table, redis: Store)
    requires Grown(s, r, kind, pc, db, redis) && Enabled(r, Do(|s.tasks|))
    ensures var c, q := Op(r, |s.tasks|, Luck(true, false, false, Token())), Apply(r, Do(|s.tasks|));
            && q.db == c.db && q.redis == c.redis && q.now == s.now && q.past != []
            && |q.tasks| == |s.tasks| + 1 && q.tasks[..|s.tasks|] == s.tasks && q.tasks[|s.tasks|] == c.task
  {
    hide Op;
  }

  /** The pc, the table and the store after an answered operation. */
  lemma LoginDoes(s: Sys, r: Sys, kind: Kind, pc: Pc, db: Table, redis: Store)
    requires Grown(s, r, kind, pc, db, redis) && Enabled(r, Do(|s.tasks|)) && kind.Login?
    ensures var q, cached := Apply(r, Do(|s.tasks|)), Live(r, UserKey(kind.user));
            match pc
            case CacheGet =>
              var next := if cached.Some? && cached.value != "" then Compare(cached.value) else QueryUser;
              Grown(s, q, kind, next, db, redis)
            case QueryUser =>
              var next := if kind.user in db then CacheSet(CStr(db[kind.user])) else Done(UserNotFound);
              Grown(s, q, kind, next, db, redis)
            case CacheSet(stored) =>
              Grown(s, q, kind, Compare(stored), db, redis[UserKey(kind.user) := Entry(CStr(stored), s.now + 300)])
            case Compare(stored) =>
              Grown(s, q, kind, if kind.pass == stored then StoreSession(Token()) else Done(WrongPassword), db, redis)
            case StoreSession(token) =>
              var session := Entry(CStr(kind.user), s.now + 3600);
              Grown(s, q, kind, Done(LoggedIn(token)), db, redis[SessionKey(token) := session])
            case _ => true
  {
    hide UserKey, SessionKey, CStr, Live, Apply, Enabled;
    OpAlone(s, r, kind, pc, db, redis);
  }

  /** The login as far as the comparison, or to the answer that there is no such user. */
  lemma LoginLooksUp(s: Sys, kind: Kind) returns (states: seq<Sys>, steps: seq<Step>)
    requires s.past != [] && Admissible(kind) && kind.Login?
    ensures Alone(s, kind, states, steps) && |states| == |steps| + 1
    ensures var cached := Live(s, UserKey(kind.user));
            var hit := cached.Some? && cached.value != "";
            if !hit && kind.user !in s.db then Grown(s, states[|steps|], kind, Done(UserNotFound), s.db, s.redis)
            else
              var stored := if hit then cached.value else CStr(s.db[kind.user]);
              var redis := if hit then s.redis else s.redis[UserKey(kind.user) := Entry(stored, s.now + 300)];
              Grown(s, states[|steps|], kind, Compare(stored), s.db, redis)
  {
    hide UserKey, Apply, Enabled, Alone;
    var i := |s.tasks|;
    BeginAlone(s, kind);
    states, steps := [s, Apply(s, Begin(kind))], [Begin(kind)];
    var r := states[1];
    DoAlone(s, kind, states, steps, CacheGet, s.db, s.redis);
    LoginDoes(s, r, kind, CacheGet, s.db, s.redis);
    states, steps := states + [Apply(r, Do(i))], steps + [Do(i)];
    r := states[2];
    if r.tasks[i].pc.QueryUser? {
      DoAlone(s, kind, states, steps, QueryUser, s.db, s.redis);
      LoginDoes(s, r, kind, QueryUser, s.db, s.redis);
      states, steps := states + [Apply(r, Do(i))], steps + [Do(i)];
      r := states[3];
      if kind.user in s.db {
        DoAlone(s, kind, states, steps, CacheSet(CStr(s.db[kind.user])), s.db, s.redis);
        LoginDoes(s, r, kind, CacheSet(CStr(s.db[kind.user])), s.db, s.redis);
        states, steps := states + [Apply(r, Do(i))], steps + [Do(i)];
      }
    }
  }

  /** From the comparison to the answer. */
  lemma LoginAnswers(s: Sys, kind: Kind, before: seq<Sys>, done: seq<Step>, stored: string, redis: Store)
    returns (states: seq<Sys>, steps: seq<Step>)
    requires kind.Login? && Alone(s, kind, before, done) && Grown(s, before[|done|], kind, Compare(stored), s.db, redis)
    ensures Alone(s, kind, states, steps)
    ensures if kind.pass == stored then
              var session := Entry(CStr(kind.user), s.now + 3600);
              Grown(s, states[|steps|], kind, Done(LoggedIn(Token())), s.db, redis[SessionKey(Token()) := session])
            else Grown(s, states[|steps|], kind, Done(WrongPassword), s.db, redis)
  {
    hide UserKey, SessionKey, Apply, Enabled, CStr, Live;
    var i, r := |s.tasks|, before[|done|];
    DoAlone(s, kind, before, done, Compare(stored), s.db, redis);
    LoginDoes(s, r, kind, Compare(stored), s.db, redis);
    var q := Apply(r, Do(i));
    states, steps := before + [q], done + [Do(i)];
    if kind.pass == stored {
      DoAlone(s, kind, states, steps, StoreSession(Token()), s.db, redis);
      LoginDoes(s, q, kind, StoreSession(Token()), s.db, redis);
      states, steps := states + [Apply(q, Do(i))], steps + [Do(i)];
    }
  }

  lemma LoginAlone(s: Sys, kind: Kind) returns (states: seq<Sys>, steps: seq<Step>)
    requires s.past != [] && Admissible(kind) && kind.Login?
    ensures Alone(s, kind, states, steps)
    ensures var e := Sequential(s, kind); Grown(s, states[|steps|], kind, Done(e.reply), e.db, e.redis)
  {
    hide UserKey, SessionKey, CStr, Live, Alone;
    states, steps := LoginLooksUp(s, kind);
    var r := states[|steps|];
    if r.tasks[|s.tasks|].pc.Compare? {
      states, steps := LoginAnswers(s, kind, states, steps, r.tasks[|s.tasks|].pc.stored, r.redis);
    }
  }

  /** The other requests, operation by operation. */
  lemma OtherDoes(s: Sys, r: Sys, kind: Kind, pc: Pc)
    requires Grown(s, r, kind, pc, s.db, s.redis) && Enabled(r, Do(|s.tasks|))
    ensures var q, e := Apply(r, Do(|s.tasks|)), Sequential(s, kind);
            && (kind.Register? && pc.CheckUser? ==>
                  Grown(s, q, kind, if kind.user in s.db then Done(Conflict) else InsertUser, s.db, s.redis))
            && (kind.Register? && pc.InsertUser? && kind.user !in s.db ==>
                  Grown(s, q, kind, Done(Registered), s.db[kind.user := kind.pass], s.redis))
            && (kind.Profile? || kind.Logout? ==> Grown(s, q, kind, Done(e.reply), e.db, e.redis))
  {
    hide UserKey, SessionKey, CStr, Apply, Enabled;
    OpAlone(s, r, kind, pc, s.db, s.redis);
  }

  /** Every request that runs alone, from any state, with every operation answered, does to
      table and store and answers what `Sequential` says at once: so a free name is
      registered, the right password logs in and opens a session, a live session has a
      profile, and its logout ends it. */
  lemma AloneIsSequential(s: Sys, kind: Kind) returns (states: seq<Sys>, steps: seq<Step>)
    requires s.past != [] && Admissible(kind)
    ensures Alone(s, kind, states, steps)
    ensures var e := Sequential(s, kind); Grown(s, states[|steps|], kind, Done(e.reply), e.db, e.redis)
  {
    hide UserKey, SessionKey, Apply, Enabled, Alone;
    if kind.Login? {
      states, steps := LoginAlone(s, kind);
    } else {
      var i := |s.tasks|;
      BeginAlone(s, kind);
      var r := Apply(s, Begin(kind));
      DoAlone(s, kind, [s, r], [Begin(kind)], Entrance(kind), s.db, s.redis);
      OtherDoes(s, r, kind, Entrance(kind));
      var q := Apply(r, Do(i));
      states, steps := [s, r] + [q], [Begin(kind)] + [Do(i)];
      if kind.Register? && kind.user !in s.db {
        DoAlone(s, kind, states, steps, InsertUser, s.db, s.redis);
        OtherDoes(s, q, kind, InsertUser);
        states, steps := states + [Apply(q, Do(i))], steps + [Do(i)];
      }
    }
  }

  /** Whatever else is going on, an insert that is answered succeeds exactly when the name is
      free at that moment, and then the row is there. */
  lemma InsertExactly(s: Sys, i: nat, luck: Luck)
    requires Enabled(s, Advance(i, luck)) && s.tasks[i].kind.Register? && s.tasks[i].pc.InsertUser? && luck.answered
    ensures var r, kind := Apply(s, Advance(i, luck)), s.tasks[i].kind;
            && |r.tasks| == |s.tasks|
            && r.tasks[i].pc == Done(if kind.user !in s.db then Registered else DatabaseError)
            && r.db == if kind.user !in s.db then s.db[kind.user := kind.pass] else s.db
  {
  }

  /** Failures: a cache that does not answer is passed over, no connection gives 503, a failed
      query 500, and a session that may not have been stored is not handed out. */
  lemma FailuresAreHandled(s: Sys, i: nat, luck: Luck)
    requires Enabled(s, Advance(i, luck)) && TaskOk(s, i) && !luck.answered
    ensures var r, pc := Apply(s, Advance(i, luck)), s.tasks[i].pc;
            |r.tasks| == |s.tasks| && r.tasks[i].pc ==
            match pc
            case CacheGet => QueryUser
            case CacheSet(stored) => Compare(stored)
            case Compare(stored) =>
              if s.tasks[i].kind.pass == stored then StoreSession(luck.token) else Done(WrongPassword)
            case InsertUser => Done(DatabaseError)
            case CheckUser => Done(if luck.happened then DatabaseError else Unavailable)
            case QueryUser => Done(if luck.happened then DatabaseError else Unavailable)
            case _ => Done(Unavailable)
  {
    hide UserKey, SessionKey, CStr, Live, Grounded, RegisteredHere, SessionSeen;
  }

  /** An answer that is no result, or no string, counts as nothing found: the check lets the
      insert decide, the cache is passed over, and user and token are unknown. */
  lemma LostResultsCountAsNone(s: Sys, i: nat, luck: Luck)
    requires Enabled(s, Advance(i, luck)) && TaskOk(s, i) && luck.answered && luck.garbled
    ensures var r, pc := Apply(s, Advance(i, luck)), s.tasks[i].pc;
            && |r.tasks| == |s.tasks|
            && (pc.CheckUser? ==> r.tasks[i].pc == InsertUser)
            && (pc.CacheGet? ==> r.tasks[i].pc == QueryUser)
            && (pc.QueryUser? ==> r.tasks[i].pc == Done(UserNotFound) && r.tasks[i].lost)
            && (pc.GetSession? || pc.DropSession? ==> r.tasks[i].pc == Done(BadToken) && r.redis == s.redis)
  {
    hide UserKey, SessionKey, CStr, Live, Grounded, RegisteredHere, SessionSeen;
  }

  /** An operation that was carried out although its answer was lost has had its effect. */
  lemma LostAnswersCount(s: Sys, i: nat, luck: Luck)
    requires Enabled(s, Advance(i, luck)) && TaskOk(s, i) && !luck.answered && luck.happened
    ensures var r, t := Apply(s, Advance(i, luck)), s.tasks[i];
            match t.pc
            case InsertUser => t.kind.user in r.db && (t.kind.user !in s.db ==> r.db[t.kind.user] == t.kind.pass)
            case CacheSet(stored) => UserKey(t.kind.user) in r.redis && r.redis[UserKey(t.kind.user)].value == stored
            case StoreSession(token) => Live(r, SessionKey(token)) == Some(CStr(t.kind.user))
            case DropSession => Live(r, SessionKey(t.kind.token)).None?
            case _ => r.db == s.db && r.redis == s.redis
  {
    hide UserKey, SessionKey, Grounded, RegisteredHere, SessionSeen, Known;
  }

  /** Time ends entries at their expiry and not before; eviction ends one at any time. */
  lemma EntriesEnd(s: Sys, key: string, seconds: nat)
    requires s.past != [] && key in s.redis
    ensures Live(Apply(s, Tick(seconds)), key).Some? <==> s.now + seconds < s.redis[key].expires
    ensures Live(Apply(s, Evict(key)), key).None?
  {
  }

  // ---- names that agree up to a NUL ----

  lemma RunsJoin(states: seq<Sys>, steps: seq<Step>, states': seq<Sys>, steps': seq<Step>)
    requires ServerRun(states, steps) && IsRun(states', steps') && states[|steps|] == states'[0]
    ensures ServerRun(states + states'[1..], steps + steps')
  {
    hide Enabled, Apply, Inherited;
  }

  /** Two requests, one after the other, over a table and an empty store. */
  lemma InTurn(db: Table, first: Kind, second: Kind) returns (states: seq<Sys>, steps: seq<Step>, k: nat)
    requires Admissible(first) && Admissible(second)
    ensures ServerRun(states, steps) && states[0] == Initial(db) && 0 < k < |steps|
    ensures var s, e := states[0], Sequential(states[0], first);
            Grown(s, states[k], first, Done(e.reply), e.db, e.redis)
    ensures var s, e := states[k], Sequential(states[k], second);
            Grown(s, states[|steps|], second, Done(e.reply), e.db, e.redis)
    ensures Alone(states[0], first, states[..k + 1], steps[..k]) && Alone(states[k], second, states[k..], steps[k..])
  {
    hide Enabled, Apply, Sequential, Inherited, Grown;
    InitialIsStart(db);
    states, steps := AloneIsSequential(Initial(db), first);
    k := |steps|;
    PastStays(Initial(db), first, states, steps);
    var states', steps' := AloneIsSequential(states[k], second);
    RunsJoin(states, steps, states', steps');
    var all, done := states + states'[1..], steps + steps';
    assert all[..k + 1] == states && done[..k] == steps && all[k..] == states' && done[k..] == steps';
    assert all[k] == states'[0] && all[|done|] == states'[|steps'|];
    states, steps := all, done;
  }

  lemma PastStays(s: Sys, kind: Kind, states: seq<Sys>, steps: seq<Step>)
    requires Alone(s, kind, states, steps)
    requires var e := Sequential(s, kind); Grown(s, states[|steps|], kind, Done(e.reply), e.db, e.redis)
    ensures states[|steps|].past != []
  {
    hide Enabled, Apply, Sequential;
  }

  /** A login reads the table only, so the table stays what it is throughout. */
  lemma {:induction false} LoginsLeaveTable(states: seq<Sys>, steps: seq<Step>, k: nat)
    requires IsRun(states, steps) && k < |states|
    requires forall i :: 0 <= i < |states[0].tasks| ==> !states[0].tasks[i].kind.Register?
    requires forall n :: 0 <= n < |steps| && steps[n].Begin? ==> !steps[n].kind.Register?
    ensures states[k].db == states[0].db
    ensures forall i :: 0 <= i < |states[k].tasks| ==> !states[k].tasks[i].kind.Register?
  {
    if k > 0 {
      LoginsLeaveTable(states, steps, k - 1);
      LeavesTable(states[k - 1], steps[k - 1]);
    }
  }

  lemma LeavesTable(s: Sys, step: Step)
    requires Enabled(s, step) && (step.Begin? ==> !step.kind.Register?)
    requires forall i :: 0 <= i < |s.tasks| ==> !s.tasks[i].kind.Register?
    ensures var r := Apply(s, step);
            r.db == s.db && forall i :: 0 <= i < |r.tasks| ==> !r.tasks[i].kind.Register?
  {
    hide Op;
    if step.Advance? {
      OpKeepsKind(s, step.i, step.luck);
      OpLeavesTable(s, step.i, step.luck);
    }
  }

  lemma OpLeavesTable(s: Sys, i: nat, luck: Luck)
    requires s.past != [] && i < |s.tasks| && !s.tasks[i].kind.Register?
    ensures Op(s, i, luck).db == s.db
  {
    hide Live, UserKey, SessionKey, CStr;
  }

  /** A registered row that shows a table is not faithful to the user, and a password that
      shows it. */
  lemma Unfaithful(db: Table, user: string) returns (v: string, pass: string)
    requires !Faithful(db, user) && 0 < |user| <= MAX_USERNAME && forall v :: v in db ==> Acceptable(v, db[v])
    ensures v in db && CStr(v) == CStr(user) && Acceptable(user, pass) && Direct(db, user, pass) != Wrong
    ensures pass != CStr(db[v]) && (CStr(db[v]) != "" || v == user)
  {
    if user in db && !NulFree(db[user]) {
      v, pass := user, db[user];
    } else {
      v :| v in db && CStr(v) == CStr(user) && CStr(db[v]) != "" && !(user in db && db[user] == CStr(db[v]));
      pass := if user in db then db[user] else if CStr(db[v])[0] == 'a' then "b" else "a";
    }
  }

  /** Two logins in turn never touch the table. */
  lemma LoginsInTurn(db: Table, first: Kind, second: Kind) returns (states: seq<Sys>, steps: seq<Step>, k: nat)
    requires Admissible(first) && Admissible(second) && first.Login? && second.Login?
    ensures ServerRun(states, steps) && states[0] == Initial(db) && k < |states|
    ensures forall m :: 0 <= m < |states| ==> states[m].db == db
    ensures var s, e := states[0], Sequential(states[0], first);
            Grown(s, states[k], first, Done(e.reply), e.db, e.redis)
    ensures var s, e := states[k], Sequential(states[k], second);
            Grown(s, states[|steps|], second, Done(e.reply), e.db, e.redis)
  {
    hide Enabled, Apply, Inherited, Sequential, Grown, Alone;
    states, steps, k := InTurn(db, first, second);
    OnlyLogins(states, steps, k, first, second);
    forall m | 0 <= m < |states| ensures states[m].db == db {
      LoginsLeaveTable(states, steps, m);
    }
  }

  /** The condition is exact: over a table of registered rows that is not faithful to a user,
      there is a run in which a login of that user, right after one of a namesake, gets a
      verdict that a direct lookup gives at no instant. */
  lemma UnfaithfulMisleads(db: Table, user: string) returns (states: seq<Sys>, steps: seq<Step>)
    requires !Faithful(db, user) && 0 < |user| <= MAX_USERNAME && forall v :: v in db ==> Acceptable(v, db[v])
    ensures ServerRun(states, steps) && states[0] == Initial(db) && |states[|steps|].tasks| == 2
    ensures var t := states[|steps|].tasks[1];
            t.kind.Login? && t.kind.user == user && t.pc == Done(WrongPassword) && !t.lost && !DirectInside(states, t)
  {
    hide Enabled, Apply, Inherited, Faithful, Sequential, CStr;
    var v, pass := Unfaithful(db, user);
    var k;
    states, steps, k := LoginsInTurn(db, Login(v, db[v]), Login(user, pass));
    MisledSecond(db, v, user, pass, states[k]);
  }

  lemma OnlyLogins(states: seq<Sys>, steps: seq<Step>, k: nat, first: Kind, second: Kind)
    requires IsRun(states, steps) && k < |steps|
    requires Alone(states[0], first, states[..k + 1], steps[..k]) && Alone(states[k], second, states[k..], steps[k..])
    requires !first.Register? && !second.Register?
    ensures forall n :: 0 <= n < |steps| && steps[n].Begin? ==> !steps[n].kind.Register?
  {
    hide Enabled, Apply;
    forall n | 0 <= n < |steps| && steps[n].Begin? ensures !steps[n].kind.Register? {
      assert steps[n] == if n < k then steps[..k][n] else steps[k..][n - k];
    }
  }

  /** The namesake's login leaves its password in the cache, and the user's compares with it. */
  lemma MisledSecond(db: Table, v: string, user: string, pass: string, r: Sys)
    requires v in db && CStr(v) == CStr(user) && pass != CStr(db[v]) && (CStr(db[v]) != "" || v == user)
    requires var s := Initial(db); var e := Sequential(s, Login(v, db[v]));
             Grown(s, r, Login(v, db[v]), Done(e.reply), e.db, e.redis)
    ensures Sequential(r, Login(user, pass)).reply == WrongPassword
  {
    hide CStr, UserKey, SessionKey;
    KeysAreApart(user, v);
    KeysAreApart(user, Token());
  }

  /** Whoever is registered under a name with a NUL can log in with that password and is from
      then on the user whose name ends at the NUL: logging in as `bob\0x` overwrites the
      cache entry of `bob` and opens a session that names `bob`. */
  lemma SessionOfNamesake(db: Table, v: string) returns (states: seq<Sys>, steps: seq<Step>)
    requires v in db && Acceptable(v, db[v]) && NulFree(db[v]) && CStr(v) != ""
    ensures ServerRun(states, steps) && states[0] == Initial(db)
    ensures var s := states[|steps|];
            && s.db == db && |s.tasks| == 2
            && s.tasks[0].kind == Login(v, db[v]) && s.tasks[0].pc == Done(LoggedIn(Token()))
            && s.tasks[1].kind == Profile(Token()) && s.tasks[1].pc == Done(ProfileOf(CStr(v)))
            && UserKey(CStr(v)) in s.redis && s.redis[UserKey(CStr(v))].value == db[v]
  {
    hide Enabled, Apply, Inherited, UserKey, SessionKey, Alone, Sequential;
    var k;
    states, steps, k := InTurn(db, Login(v, db[v]), Profile(Token()));
    NamesakeLogsIn(db, v);
    NamesakeIsNamed(db, v, states[k]);
    assert states[|steps|].tasks[0] == states[|steps|].tasks[..1][0];
  }

  lemma NamesakeLogsIn(db: Table, v: string)
    requires v in db && NulFree(db[v])
    ensures var e := Sequential(Initial(db), Login(v, db[v]));
            && e.reply == LoggedIn(Token()) && e.db == db
            && UserKey(CStr(v)) in e.redis && e.redis[UserKey(CStr(v))].value == db[v]
            && SessionKey(Token()) in e.redis && e.redis[SessionKey(Token())] == Entry(CStr(v), 3600)
  {
    hide UserKey, SessionKey;
    KeysAreApart(v, CStr(v));
    KeysAreApart(v, Token());
  }

  lemma NamesakeIsNamed(db: Table, v: string, r: Sys)
    requires v in db && NulFree(db[v]) && CStr(v) != ""
    requires var e := Sequential(Initial(db), Login(v, db[v]));
             Grown(Initial(db), r, Login(v, db[v]), Done(e.reply), e.db, e.redis)
    ensures Sequential(r, Profile(Token())) == Effect(ProfileOf(CStr(v)), r.db, r.redis)
  {
    hide UserKey, SessionKey;
    NamesakeLogsIn(db, v);
  }

  /** A session is logged out once: the second of two logouts that follow each other finds
      nothing, and neither does a profile. */
  lemma LogoutEnds(s: Sys, token: string)
    requires s.past != []
    ensures var e := Sequential(s, Logout(token));
            && (e.reply == LoggedOut <==> Live(s, SessionKey(token)).Some?)
            && Sequential(s.(redis := e.redis), Profile(token)).reply == BadToken
            && Sequential(s.(redis := e.redis), Logout(token)).reply == BadToken
  {
  }

  /** A name is registered once: two registrations that both answered 200 are of different
      names, and each left its own password in the table. */
  lemma RegisteredOnce(states: seq<Sys>, steps: seq<Step>, k: nat, i: nat, j: nat)
    requires ServerRun(states, steps) && k < |states| && i < |states[k].tasks| && j < |states[k].tasks| && i != j
    requires var t, u := states[k].tasks[i], states[k].tasks[j];
             t.pc == Done(Registered) && u.pc == Done(Registered)
    ensures var s, t, u := states[k], states[k].tasks[i], states[k].tasks[j];
            && t.kind.Register? && u.kind.Register? && t.kind.user != u.kind.user
            && t.kind.user in s.db && s.db[t.kind.user] == t.kind.pass
  {
    hide CacheAgrees, SessionsLogged, AllVerified, DeletesApart, Last, Apply;
    RunKeeps(states, steps, k);
    var s := states[k];
    assert TaskOk(s, i) && TaskOk(s, j);
    InstantsAreHistory(states, steps, k, i);
    InstantsAreHistory(states, steps, k, j);
    AnswersApart(states, steps, k, i, j);
    PastIsHistory(states, steps, k, 0);
  }

  /** No two tasks answer in the same step. */
  lemma AnswersApart(states: seq<Sys>, steps: seq<Step>, k: nat, i: nat, j: nat)
    requires ServerRun(states, steps) && k < |states| && i < |states[k].tasks| && j < |states[k].tasks| && i != j
    requires states[k].tasks[i].pc.Done? && states[k].tasks[j].pc.Done?
    ensures states[k].tasks[i].end != states[k].tasks[j].end
  {
    hide Op;
    InstantsAreHistory(states, steps, k, i);
    InstantsAreHistory(states, steps, k, j);
    var n := states[k].tasks[i].end;
    assert Enabled(states[n], steps[n]) && states[n + 1] == Apply(states[n], steps[n]);
  }

  /** Session soundness: a profile reply naming a user means that the latest event about the
      token was the store of a session of that user, by a login of that name, up to a NUL,
      whose password matched, not deleted since and not yet expired; for a user the C strings
      do no harm, that password is the user's own. */
  lemma ProfileIsSound(states: seq<Sys>, steps: seq<Step>, k: nat, i: nat)
    requires ServerRun(states, steps) && k < |states| && i < |states[k].tasks|
    requires var t := states[k].tasks[i]; t.pc.Done? && t.pc.reply.ProfileOf?
    ensures var s, t := states[k], states[k].tasks[i];
            && t.kind.Profile? && t.seen <= |s.log| && t.end < k && AnsweredIn(states[t.end], t)
            && var last := Last(s.log[..t.seen], CStr(t.kind.token));
               && last.Some? && last.value.Stored? && last.value.user == t.pc.reply.user
               && t.at < last.value.expires == last.value.since + SESSION_TTL
               && Verified(s.db, s.tasks, last.value)
               && (Faithful(s.db, last.value.user) ==>
                     Direct(s.db, last.value.user, s.tasks[last.value.author].kind.pass) == Accept)
  {
    hide CacheAgrees, SessionsLogged, DeletesApart, Last, Apply, Enabled;
    RunKeeps(states, steps, k);
    InstantsAreHistory(states, steps, k, i);
    var s := states[k];
    assert TaskOk(s, i);
    var last := Last(s.log[..s.tasks[i].seen], CStr(s.tasks[i].kind.token)).value;
    var a :| 0 <= a < |s.log| && s.log[a] == last;
    assert Verified(s.db, s.tasks, s.log[a]);
    if Faithful(s.db, last.user) {
      var login := s.tasks[last.author].kind;
      KnownByNamesake(s.db, login.user, last.user, login.pass);
    }
  }

  lemma KnownByNamesake(db: Table, login: string, user: string, pass: string)
    requires Faithful(db, user) && CStr(login) == user && pass != "" && Known(db, login, pass)
    ensures user in db && db[user] == pass
  {
  }

  /** In every run a request that is over has a reply of its kind; a login that has no verdict
      was answered 503 or 500. */
  lemma RepliesFit(states: seq<Sys>, steps: seq<Step>, k: nat, i: nat)
    requires ServerRun(states, steps) && k < |states| && i < |states[k].tasks| && states[k].tasks[i].pc.Done?
    ensures var t := states[k].tasks[i];
            && Fits(t.kind, t.pc.reply)
            && (t.kind.Login? && !t.pc.reply.Unavailable? && !t.pc.reply.DatabaseError? ==>
                  var reply := t.pc.reply;
                  VerdictOf(reply) ==
                  Some(if reply.LoggedIn? then Accept else if reply.UserNotFound? then NotFound else Wrong))
  {
    hide CacheAgrees, SessionsLogged, AllVerified, DeletesApart, Last, Apply;
    RunKeeps(states, steps, k);
    assert TaskOk(states[k], i);
  }

  /** A login that answers 200 has stored the session it hands out. */
  lemma LoginStoredItsSession(states: seq<Sys>, steps: seq<Step>, k: nat, i: nat)
    requires ServerRun(states, steps) && k < |states| && i < |states[k].tasks|
    requires var t := states[k].tasks[i]; t.kind.Login? && t.pc.Done? && t.pc.reply.LoggedIn?
    ensures var s, t := states[k], states[k].tasks[i];
            exists a :: 0 <= a < |s.log| && s.log[a].Stored? && s.log[a].author == i &&
                        s.log[a].token == t.pc.reply.token && s.log[a].user == CStr(t.kind.user)
  {
    hide CacheAgrees, SessionsLogged, DeletesApart, Last;
    RunKeeps(states, steps, k);
    var s := states[k];
    assert TaskOk(s, i);
    assert Verified(s.db, s.tasks, s.log[s.tasks[i].seen]);
  }

  /** Of all logouts of one token, two get 200 only if the session was stored again between
      their deletions: one stored session is logged out at most once. */
  lemma LogoutOncePerSession(states: seq<Sys>, steps: seq<Step>, k: nat, i: nat, j: nat)
    requires ServerRun(states, steps) && k < |states| && i < |states[k].tasks| && j < |states[k].tasks| && i != j
    requires var t, u := states[k].tasks[i], states[k].tasks[j];
             && t.pc.Done? && t.pc.reply.LoggedOut? && t.kind.Logout?
             && u.pc.Done? && u.pc.reply.LoggedOut? && u.kind.Logout? && CStr(t.kind.token) == CStr(u.kind.token)
    ensures var s, t, u := states[k], states[k].tasks[i], states[k].tasks[j];
            && t.seen < |s.log| && u.seen < |s.log| && t.seen != u.seen
            && exists c :: (t.seen < c < u.seen || u.seen < c < t.seen) && s.log[c].Stored? &&
                           s.log[c].token == CStr(t.kind.token)
  {
    hide CacheAgrees, SessionsLogged, AllVerified, Last;
    RunKeeps(states, steps, k);
    var s := states[k];
    assert TaskOk(s, i) && TaskOk(s, j);
    var a, b := s.tasks[i].seen, s.tasks[j].seen;
    assert s.log[a] == Deleted(CStr(s.tasks[i].kind.token), i) && s.log[b] == Deleted(CStr(s.tasks[j].kind.token), j);
    assert StoreBetween(s.log, if a < b then a else b, if a < b then b else a);
  }
}
