# A verified model of the SOCKSv5 proxy

The repository is a single-threaded, non-blocking SOCKSv5 proxy in C with a management protocol and its
client. This project models the engine of that server in Dafny and proves what it keeps over whole runs:
many connections at once, any partial `recv` and `send`, any interleaving with the DNS threads, and users
added and deleted meanwhile. What the kernel, the resolver and the peers answer is an argument of each step.

How the modules fit together:

- `Buffers`, `Incremental`, `Hello`, `Auth`, `Request`: the two-pointer buffer and the byte-at-a-time parsers
  (RFC 1928 sections 3, 4 and 6; RFC 1929 section 2), as classes proved against pure machines.
- `Selector`: the growable descriptor table with its three redundant indexes.
- `Session`: what each handler of a connection does, as a function on values, with a history (`Log`) that no
  handler reads. `Socks5` holds the same handlers and the state-machine engine as methods that update objects
  in place, each proved to compute its `Session` function.
- `SessionInvariant`, `SessionProofs`, `SessionEngine`: the invariant of one connection, kept by every handler.
- `World`, `WorldInvariant`, `WorldProofs`: all connections, the object pool, the DNS threads, the job list and
  the counters as one state machine; every step keeps its invariant.
- `Guarantees`, `Authentication`, `Stalls`, `Delivery`, `Teardown`: the theorems over every reachable world and
  over runs.
- `Completeness`, `Progress`, `Reactions`, `Transfers`: what must happen, not only what may. Exactly which bytes are a
  complete message, and for every state, everything a peer may send and everything the kernel may answer, which
  state follows, what is said, where the proxy connects to and which bytes move.
- `Chunks`: how TCP splits a message makes no difference to the world the proxy ends in.
- `Conversations`: whole dialogues, from the start of the proxy to the last byte the client is told.
- `MainLoop`: the loop of `selector_select`, shown to be nothing but runs of that state machine.
- `EventFrame`, `LostRetry`, `RetryTranscript`: what an event may touch, what becomes of a connection whose retry
  failed, and what its client has been told when it relays after all.
- `Stores`: where the parsers store, and for which messages every store falls inside.
- `Witnesses`: runs, step by step, that reach the exceptional cases.
- `Accounts`, `Monitor`, `MonitorErrors`, `MonitorSharing`, `MonitorClient`, `MonitorServer`: the account tables and the
  management protocol, from the client's encoder through the server's parser and back.

Properties that the code does not have as one would wish are stated exactly:

- The relay can stall between entering COPY and the first relay event, precisely if the client pipelined data
  behind its request (`Stalls.NoStallIff`); if that data fills the buffer, and only then, the next bytes of the
  client are taken for its end (`Stalls.FullBufferReadsAsEof`). So can the states that read credentials or a
  request, precisely if those came with an earlier message (`Stalls.HandshakeStallIff`).
- An address retry leaves a good connection precisely if it gets a registered descriptor
  (`SessionProofs.RetryIffReaches`). Otherwise the connection is stranded; `LostRetry.StrandedOutcome` gives what its
  next event makes of it for every answer of the kernel, and once it hangs it does so for ever
  (`LostRetry.HungForever`). `World.Enabled` assumes that retries reach registration.
- Not all that a relay receives is delivered: a direction that closes, because its source ended or failed or its
  sink failed, keeps what is buffered in it for ever (`Delivery.ClosesIff`, `Delivery.ClosedForever`). All that was
  received is delivered precisely if nothing was buffered at that moment (`Delivery.DeliveredIffEmpty`); an ordinary
  client that sends a byte and then its end can lose it (`Witnesses.RelayTruncates`).
- The SOCKS parser stores in front of the address precisely for a name of length zero
  (`Stores.RequestInsideIff`), and the management parser past its parameters, for a request that it parses to its
  end, precisely if they are longer than 255 bytes for an addition and 511 for a deletion (`Stores.DataInsideIff`).
- A released connection keeps the list its name resolved to precisely if no attempt got it an origin descriptor
  (`Guarantees.ListHeldIff`).
- The method announced is not always the one used: authentication can be switched off while an offer arrives, or
  between the offer and the moment its answer has been sent (`Authentication.AnnouncedInVainIff`,
  `Authentication.AnnouncedIsUsedIff`).
- Two management requests parsed at once disturb each other through either of two shared variables, precisely if
  one of them reads there what the other wrote and differs (`MonitorSharing.SharedIffUndisturbed`).

## Model

| member | source | states |
|---|---|---|
| `Guarantees.NeverAborts` | src/server/stm.c:60-94 | from every reachable world every step the kernel, the mutex and the loop allow leads to another reachable world: no missing handler, wrong union member, full reply buffer or released object is ever met |
| `Guarantees.StreamIntegrity` | src/server/socks5nio.c:1118-1207 | for every connection ever accepted, live or finished, and each direction: what was delivered followed by what is buffered is what was received, after the handshake bytes; delivered output is a prefix of input |
| `Delivery.ClosesIff` | src/server/socks5nio.c:1130-1137 | from every reachable world an open direction closes exactly in the step in which nothing comes from its source or its sink takes nothing, and that step moves no byte of it |
| `Delivery.ClosedForever` | src/server/socks5nio.c:1118-1207 | over any run a closed direction stays closed, with what was received, delivered and buffered on it |
| `Delivery.DeliveredIffEmpty` | src/server/socks5nio.c:1130-1137 | for either direction and either cause of closing, over any run from there: all that was received is delivered if and only if nothing was buffered when it closed |
| `Delivery.FinishedIsClosed` | src/server/socks5nio.c:1145-1148 | every finished relay has closed both directions |
| `Witnesses.RelayTruncates` | src/server/socks5nio.c:1130-1137 | a reachable relay about to close with a byte of the client still buffered |
| `Stalls.NoStallIff` | src/server/socks5nio.c:1028-1029 | in COPY every open direction has its source watched exactly while there is room and its sink exactly while there is data, if and only if a relay event has happened or the client sent nothing behind its request |
| `Witnesses.RelayStalls` | src/server/socks5nio.c:1028-1029 | a reachable relay that one pipelined byte stalls, and one that flows |
| `Stalls.FlowingIsLive` | src/server/socks5nio.c:1088-1098 | a direction that flows has a watched source or a watched sink, and a watched source always has room to receive |
| `Stalls.NoRoomIff` | src/server/socks5nio.c:1088-1098 | in a reachable COPY state the client is watched without room to receive if and only if no relay event has happened and what it pipelined fills the buffer to its end; the origin never is |
| `Stalls.FullBufferReadsAsEof` | src/server/socks5nio.c:1129-1137 | bytes that a watched client offers close its direction, as an EOF would, exactly in that case; in every other case some of them are buffered and both flags stay |
| `Witnesses.RelayFills` | src/server/socks5nio.c:1129-1137 | that case is reachable |
| `Stalls.HandshakeStallIff` | src/server/socks5nio.c:729-753 | a state that reads credentials or a request watches the client only, and has parsed all the client sent if and only if it received something in this state or the client pipelined nothing |
| `Witnesses.HandshakeStalls` | src/server/socks5nio.c:741-745 | a reachable connection that waits for a request it already has |
| `Guarantees.DuplexMirrored` | src/server/socks5nio.c:1131-1150 | in every COPY state one end's read flag is the other end's write flag, so that either end shows when both directions are closed, and at least one is open |
| `Guarantees.InterestMatchesState` | src/server/socks5nio.c:1210-1261 | any descriptor whose interest allows an event belongs to a live connection whose current state has that handler and whose union member was initialised for that state |
| `Guarantees.ReferencesCountDescriptors` | src/server/socks5nio.c:878-939 | in every reachable world the reference count of a live connection is the number of descriptors registered for it |
| `Guarantees.ObjectsAreSeparate` | src/server/socks5nio.c:308-373 | no object serves two live connections, is both live and pooled, or is pooled twice; pool length <= pool_size <= 50 |
| `Guarantees.ReleasedOnce` | src/server/socks5nio.c:1309-1323 | the step in which a connection dies unregisters its last descriptor and pools its object once, while pool_size is below the maximum |
| `Guarantees.ListHeldIff` | src/server/socks5nio.c:986-990 | a released connection still holds the list of addresses its name resolved to if and only if that list was not empty and no attempt got it an origin descriptor |
| `Witnesses.ListIsKept` | src/server/socks5nio.c:860-874 | a reachable connection released with its list |
| `Guarantees.RunIsLater` | src/server/socks5nio.c:356-373 | over any run a released connection never changes again, and authentication never comes back on |
| `Authentication.GateOpens` | src/server/socks5nio.c:651-664 | a step lets a connection through only with the flag down after it, or for a user that is in the table at that step |
| `Authentication.AuthenticationGate` | src/server/socks5nio.c:526-554 | over every run: whoever is in REQUEST_READ or later was let through with authentication off, which it still is, or sent a complete credential message for a user and password that an earlier world of the same run held in its table at the very step that matched them |
| `Authentication.AnnouncedInVainIff` | src/server/socks5nio.c:539-550 | once the method is sent, credentials are asked for if and only if the flag was up then, and then the method is 02 or FF; 02 is announced and nothing asked if and only if the flag was up at the start and when 02 came in the offer, no 00 came after its fall, and it was down when the method had been sent |
| `Authentication.AnnouncedIsUsedIff` | src/server/socks5nio.c:451-459 | the method announced is the one then used if and only if it was on offer while it was the accepted one |
| `Witnesses.MethodAnnouncedInVain` | src/server/socks5nio.c:539-550 | a reachable client that offered passwords, was told 02 after its whole offer, and is not asked, since the last user was deleted and another client came before the flush |
| `Guarantees.AuthFallsOnlyWhenEmpty` | src/server/socks5nio.c:462-474 | the flag only falls, and only at the first event of a connection while the user table is empty |
| `Authentication.Transcript` | src/server/socks5nio.c:1008-1054 | on reaching COPY the client has been sent exactly 05 m, then 01 00 if it authenticated, then 05 00 00 01 and six zeros; it authenticated if and only if the flag was up when m had been sent, and then m is 02 or FF; m is the accepted method if offered and FF otherwise, with the offer measured piecewise if the flag fell while it arrived |
| `Guarantees.RelaysToTheTarget` | src/server/socks5nio.c:772-874 | a connection in COPY is aimed at what the parsed request says, or at one of the addresses the resolver gave for the name; `Reactions.TargetAsRequested` says it of the bytes |
| `Reactions.AcceptServes` | src/server/socks5nio.c:404-441 | from every reachable world: a valid descriptor nobody uses gets exactly one connection, live and at its beginning, watched for reading, in the first object of the pool, which loses just that, or else in fresh memory; in every other case no connection is added and nothing is watched |
| `Reactions.UsersFollowEdits` | src/server/socks5nio.c:567-593 | over every run the user table is what the monitor's edits, in their order, make of the table at the start |
| `Reactions.UsersAreBound` | src/server/socks5nio.c:567-593 | a pair is in the table of a reachable world if and only if those edits, as changes of a bounded map, bind the one to the other |
| `Reactions.OfferIsRead` | src/server/socks5nio.c:462-508 | a live connection that reads its offer, from its first event on: released for an end, a failure or a wrong version; 05 and the method queued and the client watched for writing once the offer is complete; otherwise still reading with all that came eaten. The flag is down afterwards exactly if it was, or if this was the first event and the user table was empty |
| `Reactions.MethodIsSent` | src/server/socks5nio.c:526-554 | the queued reply is 05 and the method; sent in full it is followed by credentials exactly if the flag is up then, and by a request otherwise; sent in part the rest waits; a failure releases |
| `Reactions.CredentialsAreRead` | src/server/socks5nio.c:622-671 | the same for credentials: released, answered by the user table of that step, or still reading with all that came eaten |
| `Reactions.CredentialsAreJudged` | src/server/socks5nio.c:652-671 | a client whose bytes amount to the RFC 1929 message for a name and a password is answered 01 00 if and only if that pair is in the user table at that step, and 01 01 otherwise |
| `Reactions.VerdictIsSent` | src/server/socks5nio.c:673-709 | 05, the method, 01 and the verdict are all the client has been told; sent in full, verdict 0 leads to the request and any other to release |
| `Reactions.RequestIsRead` | src/server/socks5nio.c:729-753 | released for an end, a failure, a wrong version or a wrong address type; still reading, with all that came eaten, as long as the request is not complete |
| `Reactions.RequestIsServed` | src/server/socks5nio.c:772-826 | a client whose bytes amount to a request: reply 7 for another command than CONNECT; for an IPv4 or IPv6 address a connection in progress to just that address and port, with the new descriptor watched, or reply 1, 3, 4, 5 or 6 by the answers of socket, connect and registration; for a name a thread, or reply 1 without memory |
| `Reactions.ThreadRuns` | src/server/socks5nio.c:796-811 | then the handler returns, in REQUEST_RESOLV with the client unwatched |
| `Reactions.ThreadAnswers` | src/server/socks5nio.c:828-858 | the thread stores what it found in the connection, which still waits for it, and queues the connection's own descriptor |
| `Reactions.NameIsAnswered` | src/server/socks5nio.c:860-874 | the block handler queues reply 4 if no address was found, and otherwise attempts the first one |
| `Reactions.OriginAnswers` | src/server/socks5nio.c:961-1003 | the origin's answer: the next address is attempted exactly if it failed, the request named a domain and an address is left; otherwise the reply is 0 for success and 1, 3, 4, 5 or 6 for a failure |
| `Reactions.ReplyIsSent` | src/server/socks5nio.c:1008-1060 | the reply to a request, sent in full: a relay with both ends watched for reading and both directions open after status 0, release after any other |
| `Reactions.AnswerIsTold` | src/server/socks5nio.c:1008-1060 | a queued reply leaves the client told exactly those ten bytes |
| `Progress.HelloReadGoes` | src/server/socks5nio.c:480-508 | hello_read on a good connection, for every chunk: release, the queued answer, or waiting with nothing changed but what the parser ate |
| `Progress.VerdictIs` | src/server/socks5nio.c:652-671 | auth_process approves, with 01 00 and an open gate, if and only if some stored user has that name and password, and refuses with 01 01 otherwise |
| `Progress.AuthReadGoes` | src/server/socks5nio.c:622-649 | auth_read for every chunk: release, the queued verdict, or waiting with nothing changed but what the parser ate |
| `Progress.RequestReadGoes` | src/server/socks5nio.c:729-753 | request_read for every chunk: release, acting on the complete request, or waiting with nothing changed but what the parser ate |
| `Progress.ProcessGoes` | src/server/socks5nio.c:772-826 | acting on a request, for every command, destination and answer of the kernel |
| `Progress.ConnectGoes` | src/server/socks5nio.c:879-939 | a first attempt: in progress exactly if socket and connect succeed and the descriptor can be registered, otherwise the reply that tells why |
| `Progress.ConnectingGoes` | src/server/socks5nio.c:961-1003 | the origin's answer: the next address, or the reply |
| `Progress.BlockGoes` | src/server/socks5nio.c:860-874 | the resolver's answer: reply 4, or an attempt at the first address |
| `Progress.FailureByteIs` | src/server/request.c:219-241 | the status of each error, as literal bytes: 0, 5 for refused, 4 and 3 for unreachable host and network, 6 for timed out, 1 for the rest |
| `Reactions.TargetAsRequested` | src/server/socks5nio.c:772-874 | in every reachable world a connection that has an origin descriptor, from REQUEST_CONNECTING on, is aimed at the address and the port that the bytes of its request spell out, or at one of the addresses the resolver gave for the name they spell out |
| `Transfers.ReadTransfers` | src/server/socks5nio.c:1119-1150 | in every state a read event takes from its end as many of the bytes offered as there is room for, in order, and no other stream, connection, job or user changes |
| `Transfers.WriteTransfers` | src/server/socks5nio.c:1157-1207 | in every state a write event sends its end as many of the bytes buffered for it as the kernel takes, and no other stream, connection, job or user changes |
| `Chunks.SplitsAgree` | src/server/socks5nio.c:729-753 | for every reachable connection that reads an offer, credentials or a request: two splits of the same bytes, each chunk fitting and only the last one deciding the message, are possible runs to the same world: same fields, same leftover bytes, same state, same answer; only the place of the leftover bytes in their array may differ |
| `Chunks.AteTwice` | src/server/socks5nio.c:481-508 | a handler's parser eats two chunks as it eats them joined, unless the first one finishes the message |
| `Completeness.OfferStateIff` | src/server/hello.c:15-55 | the parser is done exactly on 05, n and at least n bytes, and refuses exactly another first byte |
| `Completeness.CredentialsStateIff` | src/server/auth.c:66-98 | the parser is done exactly when both announced fields are there, a length of zero counting as one, and refuses exactly another first byte |
| `Completeness.RequestStateIff` | src/server/request.c:127-165 | the parser is done exactly when the address of the announced type and the port are there, and refuses exactly another version or type |
| `Conversations.AliceIsLetIn` | src/server/socks5nio.c:652-709 | a stored user is asked, approved and let through: the client has been told 05 02 01 00 |
| `Conversations.FailuresAreTold` | src/server/request.c:219-241 | reachable clients released after 05 05 00 01 and six zeros for a refused connection, 05 06 for one timed out, 05 07 for another command |
| `Conversations.UnknownNameIsTold` | src/server/socks5nio.c:860-874 | a reachable client released after 05 04 00 01 and six zeros for a name that does not resolve |
| `Guarantees.CountersAreExact` | src/server/socks5nio.c:1034-1035 | modulo 2^32, historic_connections is the number of connections that ever entered COPY, current_connections the number in COPY, bytes_transferred the bytes relayed |
| `Guarantees.ResolvedOnce` | src/server/socks5nio.c:796-874 | a connection creates at most one thread and runs its block handler at most once for it; a resolution not yet dispatched belongs to a live connection that waits for it |
| `Guarantees.DispatchedInResolv` | src/server/selector.c:485-507 | when a job is dispatched its descriptor is still that of the connection that asked, which is in REQUEST_RESOLV however early the thread notified |
| `Guarantees.NoJobLost` | src/server/selector.c:505-534 | once a thread has notified, after any steps of anybody the end of the next drain finds its connection dispatched exactly once: the final reset of the list drops nothing |
| `Teardown.CloseAllKeeps` | src/server/selector.c:308-331 | closing any descriptors in any order keeps counts equal to descriptors and objects apart |
| `Teardown.TeardownReleasesAll` | src/server/selector.c:308-331 | from every reachable world, closing every descriptor releases every live connection, no callback meets a released object, and nothing stays registered |
| `MainLoop.SelectIsRun` | src/server/selector.c:536-579 | one round of the loop, whatever pselect reports and whatever threads and peers do in between, each time anew, is a run of the state machine that does not abort; unless pselect fails, every job queued before it is dispatched in it |
| `MainLoop.ServeNeverAborts` | src/server/selector.c:536-579 | any number of rounds stays among the reachable worlds without aborting |
| `MainLoop.LoopBegins` | src/server/selector.c:289-306 | the loop starts in a reachable world, and the assumptions on the rest of the system can be met |
| `MainLoop.PassExplained` | src/server/selector.c:450-482 | a pass over the ready descriptors is a run; `MainLoop.PassServes` says which handlers that run calls |
| `MainLoop.DrainExplained` | src/server/selector.c:485-507 | draining the jobs is a run that ends with an empty list |
| `MainLoop.VisitServes` | src/server/selector.c:456-480 | one descriptor: its read event happens exactly if it is in the read set and its interest then allows reading, and its write event after that exactly if it is in the write set and its interest then allows writing |
| `MainLoop.PassServes` | src/server/selector.c:450-482 | a pass serves each descriptor below n once, in ascending order |
| `MainLoop.ServicesAreARun` | src/server/selector.c:450-482 | the steps of these services, put together, are a run from the world before the pass to the one after it: nothing else happens in between |
| `MainLoop.SelectServes` | src/server/selector.c:536-579 | a round does nothing if pselect failed, dispatches the queued jobs if it was interrupted, and otherwise serves the descriptors first |
| `MainLoop.ServeServes` | src/server/selector.c:536-579 | the loop of the server is made of such rounds, one for each wake-up |
| `MainLoop.HandleIteration` | src/server/selector.c:450-482 | the loop over the descriptors ends in a reachable world, having served every descriptor from 0 on, in ascending order: reading exactly if it is ready for that and its interest then allows it, writing likewise after it, and no other handler |
| `MainLoop.HandleBlockNotifications` | src/server/selector.c:485-507 | the loop over the jobs computes the drain: its run consists of steps of threads and one dispatch for each job that was queued, all are dispatched, and the list is empty |
| `WorldProofs.StepKeeps` | src/server/socks5nio.c:1271-1323 | every step of the main loop, of a thread or of the monitor keeps the invariant of the whole proxy |
| `WorldProofs.RunKeeps` | src/server/socks5nio.c:1271-1323 | so does every run |
| `WorldProofs.StartKeeps` | src/server/socks5nio.c:301-304 | the invariant holds at the start, with any users and any other descriptors registered |
| `WorldProofs.AcceptKeeps` | src/server/socks5nio.c:402-441 | accepting, with or without a pooled object, memory or a free slot, keeps the invariant; `Reactions.AcceptServes` says what it does |
| `WorldProofs.NotifyKeeps` | src/server/selector.c:510-534 | a thread that queues its job keeps the invariant |
| `WorldProofs.DrainNextKeeps` | src/server/selector.c:492-504 | dispatching the next job runs the block handler of a connection in REQUEST_RESOLV and keeps the invariant |
| `SessionEngine.OnReadKeeps` | src/server/socks5nio.c:1274-1282 | a read event on a descriptor interested in reading never aborts, leaves a good connection or a released one, touches no other descriptor, and moves the counters as the connection moved |
| `SessionEngine.OnWriteKeeps` | src/server/socks5nio.c:1284-1292 | the same for a write event |
| `SessionEngine.OnBlockKeeps` | src/server/socks5nio.c:1294-1302 | the same for the block handler, in REQUEST_RESOLV |
| `SessionEngine.OnSpawnedKeeps` | src/server/socks5nio.c:807-808 | what follows the creation of the thread ends in REQUEST_RESOLV with the client unwatched |
| `SessionEngine.AnswerKeeps` | src/server/socks5nio.c:828-858 | the answer of the resolver may arrive before or after the state jump and keeps the invariant |
| `SessionEngine.NewConnKeeps` | src/server/socks5nio.c:308-340 | a new connection satisfies the invariant |
| `SessionEngine.AuthFallKeeps` | src/server/socks5nio.c:472-473 | the fall of the flag keeps the invariant of every other connection |
| `SessionEngine.ReadableWhere` | src/server/stm.c:60-70 | read interest exists only in the states that have a read handler, on the descriptor that handler serves |
| `SessionEngine.WritableWhere` | src/server/stm.c:72-82 | write interest exists only in the states that have a write handler, on the descriptor that handler serves |
| `SessionProofs.HelloReadKeeps` | src/server/socks5nio.c:479-506 | hello_read followed by the jump keeps the invariant of the connection or ends it: streams, parser in step with the bytes eaten, reply in place, interest of the next state |
| `SessionProofs.HelloWriteKeeps` | src/server/socks5nio.c:526-554 | the same for hello_write, which opens the gate only with the flag off |
| `SessionProofs.AuthReadKeeps` | src/server/socks5nio.c:620-670 | the same for auth_read, which records success only with a stored user that the credentials match; `Reactions.CredentialsAreJudged` gives the answer |
| `SessionProofs.AuthWriteKeeps` | src/server/socks5nio.c:672-704 | the same for auth_write |
| `SessionProofs.RequestReadKeeps` | src/server/socks5nio.c:729-753 | the same for request_read; `Reactions.RequestIsRead` and `Reactions.RequestIsServed` give the outcome |
| `SessionProofs.RequestProcessKeeps` | src/server/socks5nio.c:772-826 | the same for request_process, on every command and address type |
| `SessionProofs.RequestConnectKeeps` | src/server/socks5nio.c:878-939 | the same for the first request_connect, on every failure and on success |
| `SessionProofs.ResolvDoneKeeps` | src/server/socks5nio.c:860-874 | the same for the block handler |
| `SessionProofs.ConnectingKeeps` | src/server/socks5nio.c:960-1003 | the same for request_connecting, provided a retry reaches registration |
| `SessionProofs.RetryIffReaches` | src/server/socks5nio.c:974-980 | a retry leaves a good connection exactly if the new descriptor is valid, is not registered for anybody else, and its connection is in progress |
| `SessionProofs.RetryFailureBreaks` | src/server/socks5nio.c:974-980 | otherwise the connection stays in REQUEST_CONNECTING without an origin, its client watched for writing |
| `LostRetry.RetryStrands` | src/server/socks5nio.c:929-938 | after a retry without a registered descriptor the client is the only descriptor left, watched for writing, with the error reply already buffered |
| `LostRetry.StrandedOutcome` | src/server/socks5nio.c:960-1003 | the next event of such a connection, for every answer of getsockopt, socket and connect: revived with an origin and the error reply still in front, stranded again with one more reply, hung, or abort for want of room, and exactly when each |
| `LostRetry.HungForever` | src/server/selector.c:450-482 | a hung connection is the same, and watched by nobody, after any run of the proxy |
| `RetryTranscript.RevivedTranscript` | src/server/socks5nio.c:974-1054 | through any events and retries from the first attempt to the relay, the client has been sent the methods, the approval, one error reply with its status for each retry that left no origin, and then the success |
| `LostRetry.LostForever` | src/server/socks5nio.c:974-1002 | from a reachable world: a retry without a descriptor and then an event with no retry left to make leave the connection unchanged by every run from there |
| `Witnesses.RetryCanBeLost` | src/server/socks5nio.c:974-980 | a reachable connection whose retry gets no descriptor |
| `EventFrame.EventsAreModest` | src/server/socks5nio.c:1271-1323 | whatever the state of a connection, an event on it changes no descriptor but its client's, its origin's and the one that fired, and adds none but its own |
| `SessionProofs.RequestWriteKeeps` | src/server/socks5nio.c:1007-1054 | the same for request_write, which moves two counters exactly on entering COPY |
| `SessionProofs.CopyReadKeeps` | src/server/socks5nio.c:1117-1151 | copy_r keeps streams, mirrored flags and both interests for any received chunk, EOF or error |
| `SessionProofs.CopyWriteKeeps` | src/server/socks5nio.c:1155-1207 | copy_w does, for any partial send or failure, and counts the bytes sent |
| `SessionProofs.SettleReleases` | src/server/socks5nio.c:1309-1323 | a terminal state gives back both descriptors and the object, whatever descriptors it has |
| `Socks5.Connection.constructor` | src/server/socks5nio.c:322-336 | a new connection has two empty buffers of its own, one reference and no state yet |
| `Socks5.Connection.TakeHello` | src/server/socks5nio.c:489-493 | receives at most the free space and eats exactly what the parser takes |
| `Socks5.Connection.TakeAuth` | src/server/socks5nio.c:632-636 | the same for credentials |
| `Socks5.Connection.TakeRequest` | src/server/socks5nio.c:741-745 | the same for the request |
| `Socks5.Connection.Flush` | src/server/socks5nio.c:1018-1024 | sends some of the buffered reply and keeps the rest in order |
| `Socks5.Connection.CopyIn` | src/server/socks5nio.c:1129-1140 | appends what arrived to the buffer of the end that fired, or closes that direction at both ends |
| `Socks5.Connection.CopyOut` | src/server/socks5nio.c:1168-1196 | takes what was sent from the buffer of the end that fired, or closes that direction at both ends |
| `Socks5.Connection.Unref` | src/server/socks5nio.c:356-373 | drops a reference, and dies with the last one |
| `Socks5.Connection.Arrival` | src/server/socks5nio.c:605-615 | each state starts with its own data initialised |
| `Socks5.Proxy.ComputeInterests` | src/server/socks5nio.c:1087-1098 | the interest set is read if the duplex allows it and there is room, write if the duplex allows it and there is data |
| `Socks5.Proxy.CopyRead` | src/server/socks5nio.c:1117-1151 | updates buffers, selector and counters in place to exactly the outcome of `Session.CopyReadH`, of which `SessionProofs.CopyReadKeeps` holds |
| `Socks5.Proxy.CopyWrite` | src/server/socks5nio.c:1155-1207 | updates buffers, selector and counters in place to exactly the outcome of `Session.CopyWriteH`, of which `SessionProofs.CopyWriteKeeps` holds |
| `Socks5.Proxy.HelloRead` | src/server/socks5nio.c:479-517 | updates buffers, selector and counters in place to exactly the outcome of `Session.HelloReadH`, of which `SessionProofs.HelloReadKeeps` and `Progress.HelloReadGoes` hold |
| `Socks5.Proxy.HelloWrite` | src/server/socks5nio.c:526-554 | updates buffers, selector and counters in place to exactly the outcome of `Session.HelloWriteH`, of which `SessionProofs.HelloWriteKeeps` and `Progress.HelloWriteGoes` hold |
| `Socks5.Proxy.Authenticate` | src/server/socks5nio.c:651-664 | true if and only if some entry matches both fields |
| `Socks5.Proxy.ProcessAuth` | src/server/socks5nio.c:651-670 | updates the connection in place to exactly the outcome of `Session.AuthProcess`, which approves if and only if the pair is stored (`Progress.VerdictIs`) |
| `Socks5.Proxy.AuthRead` | src/server/socks5nio.c:620-649 | updates buffers, selector and counters in place to exactly the outcome of `Session.AuthReadH`, of which `SessionProofs.AuthReadKeeps` and `Progress.AuthReadGoes` hold |
| `Socks5.Proxy.AuthWrite` | src/server/socks5nio.c:672-704 | updates buffers, selector and counters in place to exactly the outcome of `Session.AuthWriteH`, of which `SessionProofs.AuthWriteKeeps` and `Progress.AuthWriteGoes` hold |
| `Socks5.Proxy.WriteError` | src/server/socks5nio.c:761-770 | the error reply is marshalled and the client, not the descriptor that fired, is watched for writing |
| `Socks5.Proxy.Connect` | src/server/socks5nio.c:878-939 | refines request_connect on a first attempt and on a retry, for each answer of socket and connect |
| `Socks5.Proxy.ProcessRequest` | src/server/socks5nio.c:772-826 | updates in place to exactly the outcome of `Session.RequestProcess`, up to the creation of the thread; `Progress.ProcessGoes` gives it for every command, destination and answer of the kernel |
| `Socks5.Proxy.RequestRead` | src/server/socks5nio.c:729-753 | updates buffers, selector and counters in place to exactly the outcome of `Session.RequestReadH`, of which `SessionProofs.RequestReadKeeps` and `Progress.RequestReadGoes` hold |
| `Socks5.Proxy.ResolvDone` | src/server/socks5nio.c:860-874 | updates buffers, selector and counters in place to exactly the outcome of `Session.ResolvDoneH`, of which `SessionProofs.ResolvDoneKeeps` and `Progress.BlockGoes` hold |
| `Socks5.Proxy.TryNext` | src/server/socks5nio.c:974-980 | moves on to the next address and connects to it, dropping what request_connect returns |
| `Socks5.Proxy.Connecting` | src/server/socks5nio.c:960-1003 | updates buffers, selector and counters in place to exactly the outcome of `Session.ConnectingH`, with the result of a retry ignored, of which `SessionProofs.ConnectingKeeps` holds |
| `Socks5.Proxy.RequestWrite` | src/server/socks5nio.c:1007-1054 | updates buffers, selector and counters in place to exactly the outcome of `Session.RequestWriteH`, of which `SessionProofs.RequestWriteKeeps` holds |
| `Socks5.Proxy.First` | src/server/stm.c:26-35 | the first event enters HELLO_READ and turns authentication off for an empty table; later events change nothing here |
| `Socks5.Proxy.JumpTo` | src/server/stm.c:37-58 | hooks are called only on a real change of state |
| `Socks5.Proxy.Finish` | src/server/socks5nio.c:1309-1323 | a terminal state unregisters both descriptors and drops a reference for each |
| `Socks5.Proxy.Read` | src/server/socks5nio.c:1274-1282 | first arrival, handler, jump and release together refine the event function |
| `Socks5.Proxy.Write` | src/server/socks5nio.c:1284-1292 | the same for writing |
| `Socks5.Proxy.Block` | src/server/socks5nio.c:1294-1302 | the same for a finished resolution |
| `Selector.NextCapacity` | src/server/selector.c:171-187 | the smallest power of two above n, capped at 1024, plus one; hence above n |
| `Selector.SmallestByHalving` | src/server/selector.c:171-187 | a power above n whose half is not above n is the smallest power above n |
| `Selector.AgreeAfterStore` | src/server/selector.c:335-376 | storing a slot and updating the indexes in place keeps them in agreement with the table |
| `Selector.AgreeAfterFree` | src/server/selector.c:378-412 | freeing a slot does, with the recomputed maximum |
| `Selector.AgreeGrown` | src/server/selector.c:245-287 | more free slots change neither the table nor the indexes |
| `Selector.FdSelector.constructor` | src/server/selector.c:289-306 | an empty table; with 1024 every valid descriptor is in bounds from the start |
| `Selector.FdSelector.EnsureCapacity` | src/server/selector.c:245-287 | on success n is in bounds, old slots are kept and all new ones are unused; the three failures and nothing else leave the table as it was |
| `Selector.FdSelector.ItemsMaxFd` | src/server/selector.c:209-221 | the scan up to the old maximum finds the largest descriptor in use, or 0 |
| `Selector.FdSelector.UpdateFdSets` | src/server/selector.c:224-238 | membership in the two sets follows the interest of the slot, and no other descriptor moves |
| `Selector.FdSelector.Register` | src/server/selector.c:335-376 | adds exactly the descriptor, or reports a bad argument, a descriptor in use or missing memory and changes nothing; indexes agree afterwards |
| `Selector.FdSelector.Unregister` | src/server/selector.c:378-412 | removes exactly the descriptor and hands its attachment to the close callback; indexes agree afterwards |
| `Selector.FdSelector.SetInterest` | src/server/selector.c:414-431 | changes exactly the interest of a registered descriptor; indexes agree afterwards |
| `Selector.FdSelector.UnregisterAll` | src/server/selector.c:308-331 | closes every registered descriptor once, in ascending order, each with its own attachment |
| `Selector.FdSelector.IndexesAgree` | src/server/selector.c:209-238 | the two sets are exactly the registered descriptors with that interest, and max_fd is the largest one or 0 |
| `Buffers.FifoRefinement` | src/server/buffer.c:49-103 | over every allowed sequence of operations, bytes read out followed by bytes held are bytes held at first followed by bytes written, and an empty buffer is back at its left end |
| `Buffers.Buffer.constructor` | src/server/buffer.c:17-22 | an empty buffer of the given capacity |
| `Buffers.Buffer.Reset` | src/server/buffer.c:11-15 | empty again, at full capacity |
| `Buffers.Buffer.Fill` | src/server/buffer.c:30-35 | storing behind the write pointer changes nothing that can be read |
| `Buffers.Buffer.WriteAdv` | src/server/buffer.c:49-55 | appends what was stored there; a negative count is ignored |
| `Buffers.Buffer.ReadAdv` | src/server/buffer.c:57-68 | drops the oldest bytes, and compacts when none are left |
| `Buffers.Buffer.Read` | src/server/buffer.c:70-80 | the oldest byte, or 0 from an empty buffer |
| `Buffers.Buffer.Write` | src/server/buffer.c:82-88 | appends a byte, or drops it when there is no room |
| `Buffers.Buffer.Compact` | src/server/buffer.c:90-103 | the overlapping move changes no content and frees all consumed space |
| `Incremental.ConsumeSplit` | src/server/hello.c:95-107 | feeding in two pieces is feeding the whole, unless the first piece completes the message |
| `Incremental.ConsumePrefix` | src/server/auth.c:100-111 | a parser stands where it would had it been given only what it ate |
| `Incremental.ConsumeMore` | src/server/request.c:174-185 | going on after a pause is one parse of everything eaten |
| `Incremental.ChunkingIrrelevant` | src/server/hello.c:95-107 | for every machine, stream and split into received chunks through the real buffer: same state and same leftover bytes as a one-shot parse; while not done the buffer is empty at full capacity |
| `Hello.HelloRoundTrip` | src/server/hello.c:15-55 | every offer followed by anything is eaten exactly; the accepted method is selected if offered, FF if not |
| `Hello.HelloShape` | src/server/hello.c:15-55 | conversely, a finished parser has eaten exactly one well-formed offer |
| `Hello.MethodsSelect` | src/server/hello.c:36-44 | a complete method list selects the accepted method if it occurs and keeps the earlier selection if not |
| `Hello.MethodsWait` | src/server/hello.c:36-44 | a list cut short leaves the parser waiting with its selection so far |
| `Hello.OfferShape` | src/server/socks5nio.c:451-459 | the converse for a flag that falls after any number of bytes: the offer is well formed and each part of it was measured against what was accepted then |
| `Hello.FlagFallsMidway` | src/server/socks5nio.c:451-459 | an offer whose parse ends with 02 selected although the flag fell before its last method |
| `Hello.HelloParser.Feed` | src/server/hello.c:15-55 | one byte moves the fields as the machine says, with the 8-bit count wrapping |
| `Hello.HelloParser.Consume` | src/server/hello.c:95-107 | eats from the buffer exactly what a parse of its contents eats, and reports an error exactly then |
| `Hello.Marshall` | src/server/hello.c:109-120 | both bytes or, without room, nothing and -1 |
| `Auth.AuthRoundTrip` | src/server/auth.c:22-98 | every credential message of RFC 1929 followed by anything is eaten exactly and gives back both fields, zero-padded |
| `Auth.AuthParser.Feed` | src/server/auth.c:66-98 | one byte moves the fields and arrays as the machine says, never outside an array |
| `Auth.AuthParser.Consume` | src/server/auth.c:100-111 | eats exactly what a parse of the buffer eats |
| `Auth.Marshall` | src/server/auth.c:126-138 | both bytes or, without room, nothing and -1 |
| `Request.RequestRoundTrip` | src/server/request.c:45-165 | every request with an IPv4, IPv6 or name destination followed by anything is eaten exactly and gives back command, type, address and port |
| `Request.RequestParser.Feed` | src/server/request.c:127-165 | one byte moves the fields and arrays as the machine says; the address type and the address lie side by side, so that the store for a name of length zero falls on the former, where it changes nothing |
| `Stores.AddressPutsAreAll` | src/server/request.c:76-119 | the recorded stores are all that a byte stores into address and port |
| `Stores.RequestInsideIff` | src/server/request.c:76-119 | for every stream of bytes, every store of the SOCKS request parser falls inside its array if and only if no name of length zero is announced |
| `Stores.StoreInFront` | src/server/request.c:76-81 | five bytes for which the last store falls in front of the address |
| `Request.RequestParser.Consume` | src/server/request.c:174-185 | eats exactly what a parse of the buffer eats |
| `Request.Marshall` | src/server/request.c:193-215 | all ten bytes or, without room, nothing and -1 |
| `Accounts.TableRefinesOrderedMap` | src/server/socks5nio.c:567-593 | under any sequence of additions and deletions the table is the bounded insertion-ordered map: distinct names, order of the rest kept by deletion, bound respected |
| `Accounts.AuthenticatesIffBound` | src/server/socks5nio.c:651-664 | a name and password are in the table if and only if the map binds the one to the other |
| `Accounts.AdminsRefineOrderedMap` | src/server/monitornio.c:160-192 | under any sequence of changes the administrators are the insertion-ordered map of at most 3 names with tokens of 16 characters, whose first entry is called root and cannot be removed |
| `Accounts.RootStays` | src/server/monitornio.c:160-192 | under any changes a non-empty administrator table has root at index 0, with the token it was given, and names stay distinct |
| `Accounts.UserTable.Register` | src/server/socks5nio.c:567-580 | appends a new name, or reports a full table or a known name and changes nothing |
| `Accounts.UserTable.Unregister` | src/server/socks5nio.c:582-593 | removes the entry of that name and shifts the rest down, or reports that there is none |
| `Accounts.UserTable.Authenticate` | src/server/socks5nio.c:651-664 | true if and only if the pair of C strings is an entry |
| `Accounts.UserTable.GetUsers` | src/server/socks5nio.c:595-603 | the names in order, joined by one NUL with none at the end, within the buffer |
| `Accounts.AdminTable.Register` | src/server/monitornio.c:160-176 | appends, calling the first one root; a token must have 16 characters |
| `Accounts.AdminTable.Unregister` | src/server/monitornio.c:178-192 | removes any administrator but root |
| `Accounts.AdminTable.GetAdmins` | src/server/monitornio.c:194-202 | the names in order, joined by one NUL |
| `Accounts.AdminTable.IsAdmin` | src/server/monitornio.c:204-211 | true if and only if some administrator holds that token |
| `Accounts.ListingIsTerminated` | src/server/socks5nio.c:596-603 | dropping the last NUL of the copied names gives the joined listing |
| `Monitor.RequestRoundTrip` | src/server/monitor.c:122-336 | for all ten kinds of request, parsing the client's encoding followed by anything recovers token, method, target and data, eating 19 bytes for GET and 21 plus the data for CONFIG, whatever earlier requests left in the shared variables |
| `MonitorSharing.SharedIffUndisturbed` | src/server/monitor.c:15-16 | for two requests parsed at once, byte by byte in any order: the first comes out exactly as it would alone if and only if the length byte it reads back and the name length it uses are always the ones it left in the shared variables |
| `MonitorSharing.AloneIsParsed` | src/server/monitor.c:325-336 | alone, the first parser does what monitor_consume does with its bytes |
| `MonitorSharing.UndisturbedRoundTrip` | src/server/monitor.c:122-336 | a request of the client, parsed while another one is and not disturbed by it, is understood as it was meant |
| `MonitorSharing.SharedNameLengthIsOverwritten` | src/server/monitor.c:160-276 | two clients that each add a user, byte by byte from the start: the first one's request is read with an empty password although both lengths are intact |
| `MonitorErrors.RequestStateIff` | src/server/monitor.c:278-318 | exactly which bytes are a complete management request and which are refused for their version, method, target or parameters, and with which status |
| `Monitor.SharedLengthIsOverwritten` | src/server/monitor.c:15-16 | a second parser fed between the two bytes makes the first take 261 for 5 |
| `Monitor.MonitorParser.FeedDlen` | src/server/monitor.c:121-158 | collects the two length bytes in the shared array, big end first |
| `Monitor.MonitorParser.FeedPair` | src/server/monitor.c:160-276 | name, NUL, secret: only alphanumeric bytes and one separator are accepted; the terminator goes to the total length; a store past the parameters changes nothing the parser holds |
| `Monitor.MonitorParser.FeedName` | src/server/monitor.c:160-276 | a name to delete: only alphanumeric bytes are accepted; a store past the parameters changes nothing the parser holds |
| `Stores.DataPutsAreAll` | src/server/monitor.c:160-276 | the recorded stores, in order, are all that a byte stores into the parameters |
| `Stores.DataInsideIff` | src/server/monitor.c:160-276 | for every request parsed to its end, every store falls inside the parameters if and only if they are at most 255 bytes for an addition, 511 for a deletion |
| `Stores.StorePastTheEnd` | src/server/monitor.c:160-276 | for every token, kind and length a request of that length that is parsed to its end; the bounds are exact |
| `Monitor.MonitorParser.Feed` | src/server/monitor.c:278-318 | one byte moves fields, arrays and shared variables as the machine says |
| `Monitor.MonitorParser.Consume` | src/server/monitor.c:325-336 | eats exactly what a parse of the buffer eats |
| `MonitorClient.SerializeData` | src/client/clientrequest.c:34-71 | the data part for each target, behind an untouched head |
| `MonitorClient.SerializeRequest` | src/client/clientrequest.c:8-32 | the buffer starts with the encoding of the request, 21 + dlen bytes |
| `MonitorClient.Marshall` | src/server/monitor.c:384-423 | status, length and data, or without room nothing and -1 |
| `MonitorClient.ErrorMarshall` | src/server/monitor.c:338-382 | the status of each parse error with one zero byte of data |
| `MonitorClient.CounterRoundTrip` | src/server/monitor.c:384-423 | every 32-bit counter survives network byte order |
| `MonitorClient.ReadCounter` | src/client/clientresponse.c:3-36 | the client reads the four data bytes as one number |
| `MonitorClient.PrintList` | src/client/clientresponse.c:3-36 | the client prints exactly the pieces between NULs, one a line |
| `MonitorClient.ListingSplits` | src/client/clientresponse.c:3-36 | splitting a listing gives back the names in order |
| `MonitorClient.ListReplyRoundTrip` | src/client/clientresponse.c:3-36 | a whole list reply splits into exactly the names listed, and that of an empty table into one empty piece |
| `MonitorClient.CounterReplyRoundTrip` | src/client/clientresponse.c:3-36 | a whole counter reply is read as the counter |
| `MonitorServer.Manager.Get` | src/server/monitornio.c:261-311 | each query is answered from the tables and counters and changes nothing |
| `MonitorServer.Manager.Configure` | src/server/monitornio.c:312-357 | each configuration changes exactly the table or flag it names and reports the outcome |
| `MonitorServer.Manager.Process` | src/server/monitornio.c:248-361 | without a known token nothing changes and nothing is told; with one, the two above |
| `MonitorServer.StrangersAreRefused` | src/server/monitornio.c:248-259 | from the client's bytes on: any request with an unknown token leaves everything as it was |
| `MonitorServer.ConfigurationTakesEffect` | src/server/monitornio.c:312-357 | from the client's bytes on: each configuration has the effect the client asked for, and OK is answered if and only if it happened, for users and administrators alike |
| `MonitorServer.CountersAreAnswered` | src/server/monitornio.c:261-311 | an administrator who asks for a counter reads that counter |
| `MonitorServer.ListsAreAnswered` | src/server/monitornio.c:261-311 | an administrator who asks for a list reads the names of the table in order, within MAX * 255 bytes; an empty table is one empty line |

## Left out

- World.Enabled: address retries are assumed to reach registration, connections in progress never complete at once, and `selector_fd_set_nio` succeeds; `SessionProofs.RetryIffReaches` gives the exact condition for retries.
- World.Next: the object pool, the job list, the worker threads and the accept handler are steps on values, not linked structures, so that pointers and the freeing of list nodes are not captured.
- MainLoop.HandleIteration: works on the world as a value; the descriptor-set test on a slot that its own read handler has just freed is taken as false, since the interest of that slot is then empty.
- Guarantees.ObjectsAreSeparate: an inequality, since pool_size is not lowered when an object is reused.
- Reactions.CredentialsAreJudged: names and passwords of 1 to 255 bytes without a NUL, which is where RFC 1929 messages and C strings agree; `Reactions.CredentialsAreRead` covers every message.
- Chunks.SplitsAgree: the chunks come one after the other, with no step of anybody else between them, since an edit of the user table or a fall of the flag between two chunks may change the answer.
- MonitorErrors.RequestStateIff: does not model what a store past the parameters overwrites.
- Accounts.AdminsRefineOrderedMap: starts from any table that represents a map, without the length limits of the arrays, which `Accounts.AdminTable.Register` has.
- Teardown.TeardownReleasesAll: does not cover a DNS thread that is still running when the process ends.
- Auth.AuthRoundTrip: field lengths 1 to 255; a length of 0 still reads one byte.
- Request.RequestRoundTrip: names of 1 to 255 bytes; a length of 0 still reads one byte.
- Request.RequestParser.FqdnLength: the address type takes four bytes with the low one first and has no gap behind it.
- Accounts.UserTable.Register: names and passwords of at most 254 bytes, where a C string fits its field.
- Accounts.AdminTable.Register: names of at most 254 bytes, for the same reason.
- MonitorSharing.SharedIffUndisturbed: the first request announces at most 255 bytes of data, the most that `Monitor.RequestRoundTrip` covers, and each parser parses one request.
- Monitor.RequestRoundTrip: total data length at most 255, where the terminator falls inside the parameters (`MonitorSharing` has two requests at a time); what a store past the parameters overwrites is not modelled; `Stores.DataInsideIff` says when there is one.
- MonitorServer.ListsAreAnswered: the whole reply is in the client's buffer; the receive loop of the client is not modelled.
- The monitor's own connections, their pool and their read and write handlers: a smaller copy of the proxy's.
- `src/server/disector.c`: its keyword matching does not have the intended property; it has no effect on the relay.
- Logging, address formatting, option parsing, start-up and socket binding: library calls and output only.
- Signals, time-outs of pselect, and malloc failing for a blocking job.
- The kernel reusing a descriptor number within one pass.
- Which user a connection is logged as (`client_uname`), and the shutdown calls on half-closed sockets.
