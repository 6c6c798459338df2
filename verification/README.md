# A verified model of the epoll/HTTP server

The server accepts connections on one reactor, spreads them over `fd mod N` edge-triggered
reactors, frames keep-alive HTTP requests out of whatever TCP delivers, answers inline or
through a database thread pool, and keeps users in MySQL with a password cache and sessions in
Redis. This project models the parts of it whose correctness depends on more than one function
or one thread, and proves what they promise for every input, every run and every interleaving.

`dafny verify dfyconfig.toml` checks everything.

## Layout

| file | models |
|---|---|
| `Wrappers.dfy`, `Counting.dfy`, `Strings.dfy`, `Numbers.dfy` | optional values, counting, `std::string::find` and its locality, trimming, `std::to_string`, `strtol` |
| `Headers.dfy` | `findHeader`, `requestContentLength`, `wantKeepAlive` |
| `Framer.dfy` | `handleMessage`, `processRequests`, `parseBody` (class `Connection`, input side) |
| `Messages.dfy` | `buildHttpResponse`, pipelined requests, `parseMethod`, `parseUrl` |
| `Json.dfy` | `jsonEscape` against a decoder for section 7 of RFC 8259; `getJsonValue` |
| `Bearer.dfy` | `generateToken`, `parseBearerToken` |
| `Output.dfy` | `sendResponse`, `sendFile`, `writeFromBuffer`, `handleWrite` (class `Connection`, output side) |
| `Readiness.dfy` | `Channel`, `Epoll` and one connection's handlers against the kernel's ready flag |
| `ThreadPool.dfy` | `ThreadPool`: workers, adders, destructor |
| `ConnPool.dfy` | `MysqlPool`, `MysqlGuard`, `RedisPool` |
| `Auth.dfy` | register, login, profile and logout over the table and the store |
| `Reactor.dfy` | `Server`: connection table, reactor assignment, batches, reused descriptors |

Sequential code that updates fields is a class whose methods are proved equal to a function of
the old state; loops are loops. Concurrent code is a step system: each critical section, system
call or store operation is one step, the environment (kernel, timeouts, spurious wakeups, store
failures) has steps of its own, and the main theorems quantify over all runs.

Conventions. A byte is one `char`; statements hold for all characters. `size_t` wrap-around is
written out where a sum could overflow (`Framer.CutFront`) and `long` saturation where a number
is parsed (`Numbers.Accumulate`). The limits of `src/include/Config.h` are parameters; 0 means
unlimited, as in the code. A `std::string` holds at most `LONG_MAX` bytes, which is the only
bound on the input buffer. System calls are lists of outcomes chosen by the environment; a list
that ends counts as EAGAIN.

## What is false, and when exactly it holds

* Framing is independent of how TCP chops the stream if and only if every header block framed
  out of it satisfies `headerEnd + 3 <= kMaxHeaderBytes` (or the limit is 0): the size guard looks
  at an unterminated buffer, so a block whose last byte is late can be refused
  (`Framer.ChunkingInvariance`; the refusing split is built in `Framer.LateByte`).
* Requests whose last byte comes in the same read event as the peer's FIN are dropped: compared with
  the same read events and no FIN, nothing is lost if and only if the last event leaves the front of
  the buffer incomplete (`Framer.EndDropsItsEvent`).
* The saturating Content-Length decides the body limit as the true number would, and lets only true
  lengths pass, if and only if there is a limit and it is below `LONG_MAX`
  (`Messages.BodyLimitExactly`).
* `getJsonValue` reads back the credentials that the page's client sends if and only if neither
  holds a quote, a backslash or a control character: `JSON.stringify` escapes those and the server
  does not decode escapes (`Json.CredentialsReadBack`).
* A refused registration is logged and forgotten (src/Epoll.cpp:58-68), and a channel is registered
  before its connection is in the table (src/Server.cpp:48-52), so a deletion may find nothing. A
  waiting connection with unread bytes or an end of file has its item queued if and only if its
  registration was not refused and it is not stranded: stranded means that since the last
  `epoll_wait` that reported it a deletion came before the insertion, and nothing happened that an
  item is queued for (`Readiness.NoLostEdge`). A refused connection is never handled again, not even
  after the idle sweep or a reset (`Readiness.RefusedForever`, a run in
  `Readiness.RefusedLosesEverything`); a stranded one at end of file waits for one of these two
  (`Readiness.EarlyDeletionLosesEdge`, `Readiness.StuckForever`, `Readiness.StuckEnds`).
* For the same reason a delivered `Connection: close` response leaves the connection open if and only
  if it was complete before the insertion (`Output.InsertDecidesClose`, `Output.EarlyCloseIsLost`).
* A cached login's verdict is that of a direct table lookup at some instant of the request if and
  only if the table's result set was fetched, or the name was not yet in the table when the request
  began: when `mysql_store_result` fails, the handler answers "user not found"
  (`Auth.CachedLoginRefinesDirect`, with a run in `Auth.LostResultMisleads`).
* That presupposes that C strings do the user no harm: keys, cached values, sessions and fetched
  rows pass through `c_str()`, and `checkCredentials` accepts a NUL. The condition is `Auth.Faithful`:
  the user's own password holds no NUL, and every registered name that agrees with the user's up to
  a NUL has, up to a NUL, the same password or none. Over any other table a login of that user gets
  a verdict that no direct lookup gives (`Auth.UnfaithfulMisleads`); whoever registered `bob\0x` logs
  in as `bob` (`Auth.SessionOfNamesake`).
* The comment at `src/Connection.cpp:118-148` speaks of trimming the token; the code trims blanks
  before the scheme and after the token, not between them, and the model follows the code.

## Model

| member | source | states |
|---|---|---|
| Strings.FindIsFirst | src/Connection.cpp:765-766 | `find` returns the first occurrence: none lies before the offset it returns, and it returns one whenever there is one |
| Strings.FindExtends | src/Connection.cpp:765 | appending bytes never moves a first occurrence already found |
| Strings.FindBeyond | src/Connection.cpp:765-778 | an occurrence created by appending bytes straddles the seam |
| Strings.FoldsLetters | src/Connection.cpp:107-109 | exactly the letters A to Z fold, to a to z |
| Strings.TrimsBlanks | src/Connection.cpp:110-111 | spaces and tabs are trimmed at either end, and nothing else |
| Numbers.DecimalRoundTrip | src/Connection.cpp:246 | the decimal text `to_string` prints denotes the number |
| Numbers.AccumulateClamps | src/Connection.cpp:706 | saturating after every digit equals clamping the unbounded number once, for any number of digits |
| Numbers.StrtolOfDigits | src/Connection.cpp:706-707 | a padded digit string followed by anything reads as its own value, saturated |
| Numbers.StrtolOfSigned | src/Connection.cpp:706 | a sign negates or keeps the digits after it, each side with its own bound |
| Numbers.StrtolSkips | src/Connection.cpp:706 | the six white-space characters are skipped in front; anything else that is neither sign nor digit reads as 0 |
| Numbers.SignedRoundTrip | src/Connection.cpp:242 | an `int` printed by `to_string` is read back |
| Headers.ScanHeader | src/Connection.cpp:93-116 | the offset scan returns the value of the first CRLF-separated line with that folded name, or "" |
| Headers.FirstLineWins | src/Connection.cpp:90-116 | the lookup is decided by the first line of that name and by nothing else |
| Headers.RequestContentLength | src/Connection.cpp:701-708 | the length the framer uses: 0 when absent, not positive or not a number, otherwise the saturated value |
| Headers.WantKeepAlive | src/Connection.cpp:712-722 | close, then keep-alive, then the protocol version decide |
| Headers.ConnectionDecides | src/Connection.cpp:712-722 | open exactly if the value does not hold close, and it holds keep-alive or the request mentions HTTP/1.1 |
| Headers.NegativeLengthIsNone | src/Connection.cpp:706-707 | a signed negative length counts as no body, whatever its digits |
| Headers.SaturationIsInvisible | src/Connection.cpp:781-789 | below `LONG_MAX` the 413 decision agrees with the unbounded value, and an accepted length is that value |
| Framer.CutFront | src/Connection.cpp:765-798 | one round of the loop in `size_t` arithmetic computes the cut; `total` does not wrap |
| Framer.Connection.ProcessRequests | src/Connection.cpp:761-847 | the loop appends exactly the decisions of the specification and leaves its leftover; it terminates |
| Framer.Connection.ReadAll | src/Connection.cpp:730-751 | the read loop appends every byte received, retries EINTR, and reports a closed peer |
| Framer.ReadsDeliver | src/Connection.cpp:730-751 | reads up to EAGAIN or the end deliver their bytes, all and in order, and nothing that would come after |
| Framer.InterruptedReadIsNothing | src/Connection.cpp:737-740 | EINTR changes nothing, wherever it comes |
| Framer.Connection.HandleMessage | src/Connection.cpp:724-753 | a read event appends what arrived and frames it; a closed peer deletes without framing |
| Framer.Connection.HandleEvents | src/Connection.cpp:724-847 | a series of read events on the object is the specification's run over them, up to the event that meets the end of the stream and deletes |
| Framer.EventsAreRun | src/Connection.cpp:724-753 | read calls that return the pieces of a stream lead to the specification's run over it |
| Framer.ReadsUpToEnd | src/Connection.cpp:730-753 | the events before the end are framed as if there were no end; what the event of the end read is buffered and never framed |
| Framer.EndDropsItsEvent | src/Connection.cpp:745-750 | for every buffer, limit and series of events, the requests served are those of the events before the FIN's; they are those of the same bytes without a FIN if and only if the last event leaves the front of the buffer incomplete |
| Framer.CutIsLocal | src/Connection.cpp:765-798 | a request or a 413 seen at the front of the buffer does not depend on what follows |
| Framer.GuardsFire | src/Connection.cpp:765-790 | 400 exactly for an unterminated buffer above the header limit, 413 exactly for an announced length above the body limit |
| Framer.DrainSplits | src/Connection.cpp:761-847 | splitting a fitting stream in two: the first part's decisions are a prefix of the whole's and the rest continues from its leftover |
| Framer.ChunkingInvariance | src/Connection.cpp:724-847 | every split of a stream into reads gives a single read's decisions up to the first closing one, and its leftover if none closes, if and only if the header blocks fit the limit with three bytes to spare |
| Framer.LateByte | src/Connection.cpp:768-776 | for a header block that does not fit, a split whose first part ends in the 400 and whose decisions differ from a single read's |
| Framer.DrainLeavesNothing | src/Connection.cpp:761-796 | maximal progress: after a non-closing call the leftover holds no complete request |
| Framer.LeftoverIsBounded | src/Connection.cpp:766-793 | that leftover is either unterminated and within the header limit, or short of its announced length, itself within the body limit; `total` fits `size_t` |
| Framer.DrainConserves | src/Connection.cpp:772-796 | the requests handed on followed by the leftover are the buffer, byte for byte, unless a size guard fires, and then the buffer is dropped |
| Framer.BodiesMatch | src/Connection.cpp:69-75 | `parseBody` of every dispatched request has exactly the length its Content-Length announced |
| Messages.TerminatorOf | src/Connection.cpp:765 | in a printed message the terminator is found exactly at the end of the header block |
| Messages.LinesOfJoin | src/Connection.cpp:93-116 | the lines of a printed header block are read back |
| Messages.ResponseIsPrint | src/Connection.cpp:239-248 | a built response is its four header lines, the terminator and the body |
| Messages.StatusLines | src/Connection.cpp:222-248 | the status line of each status the server sends, as text |
| Messages.MoreStatusLines | src/Connection.cpp:222-248 | likewise |
| Messages.ResponseFramesItself | src/Connection.cpp:239-248 | in front of anything, the server's own framing recovers a response's text, body and keep-alive flag, for every status, body within limits and content type free of CR and LF |
| Messages.ResponsesFrameThemselves | src/Connection.cpp:242-248 | any concatenation of responses is cut back into exactly that list, with nothing left over |
| Messages.RequestFramesItself | src/Connection.cpp:761-798 | a well-formed keep-alive request of any method, target form and version is cut off the front of any stream, whole and alone |
| Messages.RequestIsCut | src/Connection.cpp:761-798 | every well-formed request with an announced length is cut off whole, and its keep-alive flag is what its Connection field and version say |
| Messages.OldRequestCloses | src/Connection.cpp:712-722 | HTTP/1.0 without a Connection field closes, and so does any request that asks for it |
| Messages.LargeRequestIsRefused | src/Connection.cpp:781-790 | an announced length above the limit is answered 413 as soon as the header is there, whatever follows |
| Messages.PipelineRoundTrip | src/Connection.cpp:755-796 | framing a run of well-formed keep-alive requests dispatches exactly that list, in order, with an empty leftover |
| Messages.PipelineSurvivesChunking | src/Connection.cpp:724-847 | the same however the pipeline is chopped into reads |
| Messages.PipelineThroughReads | src/Connection.cpp:724-847 | from the socket to the dispatcher: whatever pieces the read calls return, exactly the pipeline's requests are dispatched, in order, with an empty leftover |
| Messages.RequestIsRouted | src/Connection.cpp:50-67 | `parseMethod` and `parseUrl` read back what the client wrote |
| Messages.MalformedIsRoot | src/Connection.cpp:50-67 | a text without spaces counts as GET, one without a second space as for the root |
| Messages.BodyLimitExactly | src/Connection.cpp:781-789 | for every announced digit string the 413 decision and the accepted length are those of the unbounded number, if and only if the limit is positive and below `LONG_MAX` |
| Json.JsonEscape | src/Connection.cpp:153-180 | the loop computes the escaped text |
| Json.Escape | src/Connection.cpp:153-180 | the text grows to at most six times its length |
| Json.EscapeLengths | src/Connection.cpp:159-177 | five characters are escaped in two, the other control characters in six, nothing else |
| Json.EscapeRoundTrip | src/Connection.cpp:150-180 | decoding the escaped text by section 7 of RFC 8259 gives back every byte string and stops exactly at the closing quote |
| Json.EscapeIsSafe | src/Connection.cpp:150-180 | no control character and no unescaped quote comes out |
| Json.ProfileNamesUser | src/Connection.cpp:658-659 | the profile body's field decodes to the user name and is followed by the closing brace |
| Json.StringifyRoundTrip | static/index.html:267 | what the client writes decodes to what the user typed |
| Json.CredentialsReadBack | src/Connection.cpp:77-88 | user name and password are read back from the client's stringified body if and only if neither holds a quote, a backslash or a control character |
| Json.MissingIsEmpty | src/Connection.cpp:79-87 | a field that is missing, or whose value does not end, reads as empty |
| Bearer.GenerateToken | src/Connection.cpp:462-476 | the token has the issued length and alphabet, each character the one drawn |
| Bearer.CharsetIsFair | src/Connection.cpp:462-476 | thirty-two characters drawn from thirty-six different ones |
| Bearer.BearerRoundTrip | src/Connection.cpp:118-148 | a request whose first Authorization line carries a token parses back to it, whatever the letter case of name and scheme, blanks before the colon and around the value, and body |
| Bearer.BearerWithoutEnd | src/Connection.cpp:118-123 | the same for a header block without its terminator |
| Bearer.TokenComesFromCredentials | src/Connection.cpp:124-147 | conversely a token comes only from a value of that form, within the cap |
| Output.Connection.DrainBuffer | src/Connection.cpp:398-415 | the `write` loop follows the specification against every list of outcomes |
| Output.Connection.DrainFile | src/Connection.cpp:418-435 | the `sendfile` loop likewise |
| Output.Connection.WriteFromBuffer | src/Connection.cpp:394-450 | buffer, then file, then stop watching and close if announced |
| Output.Connection.HandleWrite | src/Connection.cpp:452-458 | an EPOLLOUT event resumes pending output or stops watching |
| Output.Connection.SendResponse | src/Connection.cpp:331-338 | loads the built response and writes it |
| Output.Connection.SendFile | src/Connection.cpp:372-392 | loads header and file and writes them; without a file nothing changes |
| Output.WriteConserves | src/Connection.cpp:394-450 | bytes sent followed by bytes pending are unchanged by a call, whatever the kernel answers |
| Output.WriteAmount | src/Connection.cpp:401-426 | a call sends what the kernel offers and never more than was asked for: exactly that many bytes of the pending output |
| Output.InterruptedIsNothing | src/Connection.cpp:404-428 | EINTR changes nothing, wherever it comes |
| Output.ErrorCloses | src/Connection.cpp:411-434 | an error, or a call that takes nothing, ends a connection in the table and sends nothing |
| Output.IdleUnwatches | src/Connection.cpp:452-458 | an EPOLLOUT event with nothing to send ends the watch and nothing else |
| Output.WriteProgresses | src/Connection.cpp:394-435 | every call that takes something brings the end at least a byte nearer |
| Output.WriteSettles | src/Connection.cpp:394-450 | a call ends blocked and watched, idle, closed after full delivery as announced, or broken off with output pending; deletions count only for a connection in the table |
| Output.DeliveryConserves | src/Connection.cpp:331-458 | from idle and over any number of resumptions, sent followed by pending is header and body; a complete delivery sent exactly that and, for a connection in the table, is open if and only if keep-alive was asked for; an incomplete open one is watched unless an error came before the insertion |
| Output.DeliveryCompletes | src/Connection.cpp:331-458 | a delivery is complete once there were as many EPOLLOUT events as bytes, each letting one through |
| Output.InsertDecidesClose | src/Server.cpp:48-52 | with the insertion falling into the delivery, a complete one is left open if and only if keep-alive was asked for or it was complete before the insertion |
| Output.EarlyCloseIsLost | src/Connection.cpp:444-449 | a closing response that is out before the insertion leaves an open, tabled, idle connection |
| Output.DeliveriesAgree | src/Connection.cpp:331-458 | any two complete deliveries send identical bytes |
| Output.FileIsPlainResponse | src/Connection.cpp:380-384 | a file sent with status 200 is byte for byte the response of a string with the same contents |
| Output.PeerRecoversResponses | src/Connection.cpp:331-392 | end to end: whatever the kernel does to each write, cutting the bytes received with the server's own framing gives exactly the responses sent, from strings and from files, in order, with nothing left over |
| Output.ClosingIsLast | src/Connection.cpp:444-449 | of all the responses sent on a connection, each but the last is keep-alive or was sent before the connection was in the table |
| Readiness.Channel.EnableReadingET | src/Channel.cpp:20-24 | adds the read flags and registers |
| Readiness.Channel.EnableWriting | src/Channel.cpp:27-31 | adds EPOLLOUT and updates the registration, which polls again |
| Readiness.Channel.DisableWriting | src/Channel.cpp:34-38 | removes EPOLLOUT and updates the registration, which polls again |
| Readiness.Epoll.UpdateChannel | src/Epoll.cpp:48-75 | ADD, MOD, taking over an entry on EEXIST, and a registration refused for another reason |
| Readiness.Epoll.ActiveChannels | src/Epoll.cpp:38-45 | every reported channel gets its own events, in order |
| Readiness.StepKeeps | src/Channel.cpp:40-54 | every kernel event, every handler step and the table insertion keep the readiness invariant |
| Readiness.NoLostEdge | src/Channel.cpp:27-54 | in every run from every fresh connection, between handlers, unread bytes or EOF have the item queued if and only if the registration was not refused and the connection is not stranded; unsent output has EPOLLOUT registered, and the item queued once the socket is writable, unless its write failed |
| Readiness.NoEdgeLostOnceTabled | src/Server.cpp:48-52 | so a registered connection with no deletion before the insertion loses no edge |
| Readiness.RefusedForever | src/Epoll.cpp:58-68 | a connection whose registration was refused is never queued, handled or deleted in any run, whatever the kernel, the peer and the idle sweep do |
| Readiness.RefusedLosesEverything | src/Epoll.cpp:58-68 | a run in which such a connection, in the table, has unread bytes and was shut down by the sweep, and waits |
| Readiness.EarlyDeletionLosesEdge | src/Connection.cpp:745-750 | a run in which a registered, tabled, live connection at EOF is off the ready list |
| Readiness.StuckForever | src/Server.cpp:63-79 | such a connection stays so through every run without an idle sweep and without a reset |
| Readiness.StuckEnds | src/Server.cpp:63-79 | either of these queues it again |
| Readiness.NeverStalls | src/Connection.cpp:724-753 | a waiting connection with work to do is reported and gets a callback, if and only if it is registered and not stranded |
| Readiness.RepollIsNeeded | src/Channel.cpp:43-48 | a run from a fresh connection in which the write callback drops the read edge and only the `epoll_ctl` that ends the write queues the item again |
| Readiness.EventsShow | src/Epoll.cpp:38-45 | every kernel event is there to be polled afterwards |
| Readiness.EachFlagRoutes | src/Channel.cpp:40-54 | which reported flags reach which handler, EPOLLOUT before the others |
| Readiness.CallsTake | src/Connection.cpp:398-403 | a read takes its bytes, a write its bytes and perhaps the last room, a failing call the pending error |
| Readiness.IdleWriteEvent | src/Connection.cpp:452-458 | an EPOLLOUT event with nothing to send never deletes, whatever the last reply announced |
| Readiness.HandlerGoesOn | src/Connection.cpp:724-753 | a handler can always take a step, and without a failure |
| Readiness.ReplyEnds | src/Connection.cpp:440-449 | a closing reply that the socket takes ends a tabled connection; any other returns to the framing loop with nothing to send |
| Readiness.EndIsNoticed | src/Connection.cpp:745-750 | the rest of a stream is read, and its end then deletes a tabled connection |
| ThreadPool.Queue.Push | src/include/ThreadPool.h:40-50 | accepted exactly when not stopped, and then appended |
| ThreadPool.Queue.Pop | src/ThreadPool.cpp:13-24 | under the lock a worker starts the front task, exits when stopped and empty, or sleeps |
| ThreadPool.StepKeeps | src/ThreadPool.cpp:10-46 | every step keeps work conservation, stop, accounting and clean exits |
| ThreadPool.WorkConservation | src/ThreadPool.cpp:10-27 | in every interleaving no worker sleeps unless queued tasks number at most pending notifies plus signalled workers; after stop none sleeps unless `notify_all` is to come |
| ThreadPool.StartedOnceInOrder | src/ThreadPool.cpp:22-26 | in every interleaving accepted tasks are the started ones followed by the queue, in order; each started task is running or finished, with multiplicity |
| ThreadPool.AcceptedExactly | src/include/ThreadPool.h:40-52 | in every interleaving the tasks accepted are exactly those added before the stop, in order, and the other adds are turned away |
| ThreadPool.QueuedIsNotForgotten | src/ThreadPool.cpp:13-24 | in every interleaving, while a task is queued some worker can move or a notify is on its way |
| ThreadPool.AddedTaskRuns | src/ThreadPool.cpp:10-27 | a run in which an added task is started and finishes |
| ThreadPool.WorkerActs | src/ThreadPool.cpp:13-26 | with the lock a worker starts the oldest task, or leaves a stopped pool, or sleeps |
| ThreadPool.WakeupsWake | src/ThreadPool.cpp:13-17 | every wakeup reaches a sleeper, and only by a wakeup does one stir |
| ThreadPool.NoneAcceptedAfterStop | src/include/ThreadPool.h:43-46 | once stop is set the accepted tasks never change |
| ThreadPool.DrainIsBounded | src/ThreadPool.cpp:31-46 | after `notify_all` no run holds more worker steps than the work left |
| ThreadPool.DrainNeverStuck | src/ThreadPool.cpp:38-45 | while a worker has not exited, some worker can move |
| ThreadPool.JoinMeansAllRun | src/ThreadPool.cpp:39-45 | when all workers have exited, stop is set, the queue is empty and every accepted task has finished |
| ThreadPool.DestructorFinishes | src/ThreadPool.cpp:31-46 | whatever has happened before, a run that goes on with stop and notify_all can be continued until every worker has exited and every accepted task has finished |
| ConnPool.IdleQueue.constructor | src/MysqlPool.cpp:19-43 | the pool holds the connections that could be opened, in order |
| ConnPool.OpenedInOrder | src/RedisPool.cpp:19-27 | successful attempts keep their order, a failed one leaves nothing |
| ConnPool.IdleQueue.GetConn | src/MysqlPool.cpp:65-78 | the front connection, or null exactly when the queue is empty at the last check |
| ConnPool.IdleQueue.ReleaseConn | src/MysqlPool.cpp:80-88 | appends the connection; null is ignored |
| ConnPool.MysqlGuard.constructor | src/include/MysqlPool.h:38 | acquires on construction |
| ConnPool.MysqlGuard.Destroy | src/include/MysqlPool.h:39-43 | returns its own connection, if any |
| ConnPool.GuardedScope | src/include/MysqlPool.h:35-50 | a guarded scope returns the very connection it took, exactly once |
| ConnPool.RedisPool.DiscardBrokenConn | src/RedisPool.cpp:59-70 | frees the broken connection and pushes its replacement, if one opened |
| ConnPool.RedisPool.Get | src/RedisPool.cpp:107-143 | on every path the connection is returned or freed exactly once; status and value follow the reply |
| ConnPool.RedisPool.Setex | src/RedisPool.cpp:145-162 | likewise; true exactly for a reply that is not an error |
| ConnPool.RedisPool.Del | src/RedisPool.cpp:164-182 | likewise; ok exactly for a positive integer reply |
| ConnPool.UseConserves | src/RedisPool.cpp:107-182 | on every path of a command the connection taken is back in the queue or freed, once, and nothing else comes or goes but a replacement |
| ConnPool.CommandIsSteps | src/RedisPool.cpp:59-182 | a command that nobody disturbs is a run of the step system with the queue and the freed connections that the methods promise |
| ConnPool.StepKeeps | src/RedisPool.cpp:59-105 | every step keeps sound waiting, conservation and single ownership |
| ConnPool.PoolConservation | src/RedisPool.cpp:15-105 | in every interleaving idle, held, being replaced and failed replacements add up to the connections first created |
| ConnPool.SingleOwner | src/RedisPool.cpp:59-105 | in every interleaving a connection is idle once, in one hand, or freed once, and never in two places |
| ConnPool.WaitingIsSound | src/RedisPool.cpp:82-105 | in every interleaving no caller sleeps unsignalled while idle connections outnumber signalled callers |
| ConnPool.NullMeansExhausted | src/MysqlPool.cpp:68-73 | in every interleaving `getConn` returns null exactly to a caller whose time is up while every connection is held, being replaced or lost |
| ConnPool.CallerGoesOn | src/MysqlPool.cpp:65-88 | a caller can always go on; a sleeping one at the latest when its time is up |
| ConnPool.SleepersStir | src/MysqlPool.cpp:65-88 | every wakeup reaches a sleeper, a timeout ends its wait, and nothing else stirs it |
| Auth.KeysPassThroughCStr | src/RedisPool.cpp:119 | a key cut at its first NUL is its prefix followed by the name cut at its first NUL |
| Auth.KeysAreApart | src/Connection.cpp:551-620 | `user:` and `session:` keys never coincide, and within a kind keys coincide exactly when the names agree up to a NUL |
| Auth.StepKeeps | src/Connection.cpp:478-695 | every store operation, expiry, eviction and new request keeps the invariant |
| Auth.RestartIsStart | src/RedisPool.cpp:107-182 | whenever a server ends, the table and the store it leaves are a start covered by the run theorems |
| Auth.CacheAgreesWithTable | src/Connection.cpp:548-600 | in every run a cached password is, up to a NUL, the table's for that name or a namesake; for a user the table is faithful to, it is the table's own or empty |
| Auth.CachedLoginRefinesDirect | src/Connection.cpp:534-630 | in every run, for a user the table is faithful to, a login's accept, not-found or wrong-password verdict is that of a direct lookup at some instant inside the request, if and only if the result set was fetched or the name was not in the table at the beginning |
| Auth.UnfaithfulMisleads | src/Connection.cpp:548-600 | over every table of registered rows that is not faithful to a user, a run in which a login of that user gets a verdict of no instant |
| Auth.LostResultMisleads | src/Connection.cpp:583-606 | a run in which a registered user is told that there is no such user |
| Auth.RegisteredOnce | src/Connection.cpp:503-530 | in every run two successful registrations are of different names, each with its own password in the table |
| Auth.AloneIsSequential | src/Connection.cpp:478-695 | every request that runs alone with every operation answered, from any state, does to table and store and answers what a one-step specification says: a free name is registered, the right password opens a session, a live session has a profile, its logout ends it |
| Auth.LogoutEnds | src/Connection.cpp:666-695 | a logout answers 200 exactly for a live session, and the next profile or logout of the token finds nothing |
| Auth.InsertExactly | src/Connection.cpp:519-530 | in any state an answered insert succeeds exactly when the name is free, and then the row is there |
| Auth.FailuresAreHandled | src/Connection.cpp:488-628 | where an unanswered operation leads: past the cache, to 503 or to 500 |
| Auth.LostAnswersCount | src/Connection.cpp:519-628 | an operation carried out although its answer was lost has had its effect |
| Auth.LostResultsCountAsNone | src/Connection.cpp:511-606 | an answer that is no result counts as nothing found |
| Auth.RepliesFit | src/Connection.cpp:478-695 | in every run a request that is over has a reply of its kind, and a login without a verdict was answered 503 or 500 |
| Auth.AdmittedExactly | src/Connection.cpp:291-305 | what gets as far as the database pool, with the limits in numbers |
| Auth.EntriesEnd | src/RedisPool.cpp:145-162 | an entry ends at its expiry and not before, or when it is evicted |
| Auth.ProfileIsSound | src/Connection.cpp:632-664 | in every run a 200 profile naming a user means the latest event about the token was a store by a password-verified login of that name up to a NUL, not deleted since and less than a session lifetime old; for a user the table is faithful to, with the user's own password |
| Auth.SessionOfNamesake | src/Connection.cpp:617-659 | for every registered name with something before its first NUL and a NUL-free password, a run in which its login fills the cache of, and its profile names, that part of the name |
| Auth.LoginStoredItsSession | src/Connection.cpp:617-628 | in every run a 200 login has stored the session it hands out, under its own user name up to a NUL |
| Auth.LogoutOncePerSession | src/Connection.cpp:666-695 | in every run two 200 logouts of one token have a store of it between their deletions |
| Reactor.Server.NewConnection | src/Server.cpp:37-53 | inserts under the descriptor and assigns reactor `fd mod N`; a bad descriptor changes nothing |
| Reactor.Server.DeleteConnection | src/Server.cpp:81-90 | removes that descriptor's entry only |
| Reactor.Server.SweepIdle | src/Server.cpp:63-79 | shuts down exactly the connections idle for too long and leaves the table alone |
| Reactor.DeleteIsOwn | src/Server.cpp:81-90 | erasing by descriptor destroys the connection whose handler runs, or nothing if it is not in the table yet |
| Reactor.ReactorOwnership | src/Server.cpp:37-90 | in every interleaving each table entry is a live connection owning that descriptor on reactor `fd mod N`, no live connection but the one being built is missing, and every channel still in a batch is alive on the reactor handling it |
| Reactor.InsertNeverOverwrites | src/Server.cpp:49-52 | insertion never overwrites an entry |
| Reactor.TurnsAreSafe | src/EventLoop.cpp:19-28 | the connection whose handler runs is alive |
| Reactor.HandledInOrder | src/EventLoop.cpp:19-28 | in every interleaving a reactor handles exactly what was reported to it, each channel once and in order |
| Reactor.BatchEnds | src/EventLoop.cpp:19-28 | a batch ends and the reactor waits again |
| Reactor.Lifetime | src/Server.cpp:37-90 | a run from accept to deletion, after which the descriptor is used again |

## Left out

- Sockets, addresses, logging, signal handling, the demo page and the test client: plumbing and user interface.
- `src/Buffer.cpp`: used by the test client only.
- Routing beyond method and target, the inline pages, and `allowRequest`: they would only add easy members; the shipped rate limit is 0 and its counters are deliberately coarse across threads.
- In-order delivery across overlapping responses: `sendResponse` and `sendFile` overwrite pending output (src/Connection.cpp:334, 381), so delivery is stated from an idle output state.
- `sendHttpResponse`, the best-effort write of database workers: it appears only as another writer that takes socket space (`Readiness.SpaceFills`).
- Member access after a hard write error inside the framing loop (src/Connection.cpp:412, 844-846): a deleted connection takes no further steps in `Readiness` and `Reactor`.
- Further events after a deletion that found nothing: `Framer` takes the first deletion as the end of a connection; a socket at EOF delivers no more bytes anyway.
- Silence after a closing decision: reads that still arrive are framed (src/Connection.cpp:821-827), so decisions are compared up to the first closing one.
- HTTP conformance of field values: the model follows `strtol` and the substring tests of `wantKeepAlive`.
- MySQL escaping, collations and column truncation, hiredis formatting, the random generator: the table is a map with unique names whose rows never change, the store a map with expiry.
- `EPOLL_CTL_MOD` of a registered descriptor is taken to succeed.
- Readiness.NoLostEdge: nothing is promised about output whose write failed before the insertion; the code drops its error and waits for whatever event comes next.
- Surrogates in typed credentials: text is its UTF-8 bytes, so the `\u` escapes of `JSON.stringify` for lone surrogates do not arise.
- Json.Decode: surrogate pairs of `\u` escapes are not read.
- Late writes of database workers to a reused descriptor, and the destruction order of the pools: outside the models.
- `EventLoop::loop` as a loop: a batch is the `EpollWait`, `BeginTurn` and `EndTurn` steps of `Reactor`, which assumes that closing a descriptor removes its registration.
- Fairness of the scheduler and of the kernel: `ThreadPool.DrainIsBounded` and `ThreadPool.DrainNeverStuck` give the join once workers keep being scheduled and tasks return.
