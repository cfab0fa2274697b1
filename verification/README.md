# PortForwardX: a verified model

PortForwardX forwards TCP connections and UDP datagrams from a listening port to a target. Its core
is small but concurrent: an accept or UDP loop thread, a DNS refresher, one receiver thread per UDP
client, three threads per TCP connection, and a caller of Start and Stop, all sharing socket handles
whose numbers the operating system reuses as soon as they are closed. This project models that core
in Dafny and proves what it promises, over every schedule and every behaviour of peers, resolver and
kernel.

Two forms are used side by side. Programs that one thread executes (the relay loop, sorting, the
endpoint searches, the session tables, the target cache) are methods and classes with loops and
invariants, as in the source. Protocols between threads are step systems: a `State`, a `Next` that
gives the successor of one atomic action of one thread, `Reachable`, an invariant kept by every step,
and theorems about all reachable states and all runs.

| file | subject |
|---|---|
| `Refresher.dfy`, `Ranks.dfy` | the DNS refresher thread, which both forwarders share; sums of ranks |
| `Sockets.dfy` | the kernel's handle table; closed numbers are free for reuse; every close is counted |
| `Endpoints.dfy`, `TargetCache.dfy` | order of resolved endpoints; the list that keeps its last good value |
| `Clock.dfy` | 64-bit idle test and sweep test, 32-bit refresh interval |
| `ClientKey.dfy` | keys of UDP clients |
| `OsCalls.dfy`, `Dialling.dfy` | the three loops that try one endpoint after the other; what such a search can come to |
| `UdpTable.dfy`, `TcpTable.dfy` | the session tables as the owning thread works on them |
| `UdpMachine.dfy`, `UdpSafety.dfy`, `UdpHistory.dfy`, `UdpStop.dfy`, `UdpTheorems.dfy`, `UdpOrder.dfy`, `UdpEviction.dfy`, `UdpBinding.dfy`, `UdpShutdown.dfy`, `UdpLocks.dfy` | the UDP forwarder: steps, invariant, history of datagrams, termination of Stop, theorems; order of datagrams, delay of evictions and life of sessions over runs; shutdown before close; the lock of its table |
| `UdpLoopLaw.dfy`, `UdpPace.dfy`, `UdpReceiverLaw.dfy`, `TcpAcceptLaw.dfy` | what the serving threads do with each answer they get, told by the acts of a run; that they keep serving |
| `StartLaw.dfy`, `UdpStartLaw.dfy`, `TcpStartLaw.dfy` | the same for the caller of Start and Stop, and for the refresher |
| `TcpMachine.dfy`, `TcpSafety.dfy`, `TcpCache.dfy`, `TcpStop.dfy`, `TcpTheorems.dfy`, `TcpRelay.dfy`, `TcpComposed.dfy`, `TcpLocks.dfy` | the same for the TCP forwarder; its sessions in full detail, one by one and inside a running forwarder; the lock of its tables |
| `RelayProgram.dfy`, `RelaySession.dfy`, `RelayEnding.dfy`, `RelayChain.dfy` | one relay direction; a session with its races; how it winds up; chains of relays |

How the parts connect: the methods of `RelayProgram` leave logs that are runs of the automaton which
`RelaySession` interleaves with the other threads; `TcpRelay.SessionRefines` shows that such a session
is the session of `TcpMachine`, its calls of Stop included, and `TcpRelay.ShutSessionCloses` that what
`TcpMachine` grants a session that was shut down is what such a session does; `TcpComposed` runs both
over one kernel, so that the results of `RelaySession` hold of every session of a running forwarder;
`OsCalls.SearchIsPick` and `OsCalls.SearchAnswers` tie the search methods to the machines' choices; `UdpTable` and
`UdpMachine` use the same tests of `Clock`; and runs with the table locks of `UdpLocks` and `TcpLocks` are runs of the
machines.

Besides what a forwarder never does, it is proved that it does its work. For each thread there is a book: a fold over the
thread's acts in a run (what it called and what was answered), which refuses an act that is out of order. In every run
every book is in order and agrees with the state. From there: every datagram received is sent once or refused for a
reason, every endpoint is tried before a client is rejected, a session is marked exactly for a cause, and so on. And each
thread takes every answer the environment can give and comes back to its receive call after boundedly many steps.

Two facts about the code that the proofs brought out:

- The idle test loads the activity stamp twice. If the stamp moves past the sweep's clock reading
  between the loads, the unsigned difference wraps around and a fresh session is evicted.
  `Clock.SplitReadEvictsFreshSession` gives the numbers and `Clock.IdleOnTwoReads` says exactly when
  it happens. All other results take both loads as one read.
- The refresh interval is computed in 32 bits: above 71582 minutes it is the residue modulo 2^32 of
  the milliseconds (`Clock.IntervalIsExact`).

## Model

| member | source | states |
|---|---|---|
| Endpoints.ComparatorIsStrictWeak | src/net/forwarder.cpp:52-56 | the comparator is a strict weak order on a list if and only if the list does not contain IPv4, IPv6 and an unknown family together |
| Endpoints.StableSortIsUnique | src/net/forwarder.cpp:52-57 | whatever stable sort the library uses, the outcome is IPv6 endpoints in their order followed by IPv4 endpoints in theirs |
| Endpoints.ArrangedTwice | src/net/forwarder.cpp:50-68 | arranging a list is idempotent, keeps exactly the allowed endpoints and loses none |
| Endpoints.FilterFamily | src/net/forwarder.cpp:60-67 | the loop computes the order-preserving filter |
| Endpoints.OnlyAskedFamilyStays | src/net/forwarder.cpp:50-68 | a preference for one family leaves exactly its endpoints, and without a preference all stay |
| Endpoints.V6First | src/net/forwarder.cpp:52-57 | with no preference no IPv4 endpoint is tried before an IPv6 one |
| Endpoints.ExplicitFamilyWins | src/net/forwarder.cpp:380-389 | a family asked for the target wins, the common setting counts only if nothing was asked for either side, otherwise any family will do |
| Endpoints.SortEndpoints | src/net/forwarder.cpp:50-68 | result is the arranged list, for each preference, wherever the sort is defined |
| TargetCache.RefreshedIsLastGood | src/net/forwarder.cpp:391-407 | one more resolution, good or failed, keeps the list equal to the last good resolution of the history |
| TargetCache.LastGoodIsAllowed | src/net/forwarder.cpp:391-407 | the list holds only families the effective preference allows |
| TargetCache.Cache.ResolveTargetEndpoints | src/net/forwarder.cpp:391-407 | reports success exactly when an allowed endpoint was found; replaces the list then and keeps it otherwise |
| TargetCache.Cache.TargetEndpointsSnapshot | src/net/forwarder.cpp:409-412 | a snapshot is the last good resolution |
| Clock.IdleOnOneRead | src/net/forwarder.cpp:665-669 | on one read of the stamp the test says exactly "silent for longer than the timeout", without wrap-around |
| Clock.DueIsOverdue | src/net/forwarder.cpp:665-671 | so a sweep closes a session exactly when it is forced, or the session is marked or was silent for longer than a timeout that is not 0 |
| Clock.IdleOnTwoReads | src/net/forwarder.cpp:665-669 | exact condition under which two loads make a session idle that is not |
| Clock.SplitReadEvictsFreshSession | src/net/forwarder.cpp:665-669 | a concrete such eviction with the default timeout |
| Clock.IntervalIsExact | src/net/forwarder.cpp:420-424 | the 32-bit interval equals minutes times 60000 if and only if there are at most 71582 minutes, and is the residue otherwise |
| Clock.ResolverTicks | src/net/forwarder.cpp:419-447 | k ticks of the refresher make exactly floor(k / (300 m)) attempts for m minutes, 0 meaning 10 |
| ClientKey.KeyRoundTrip | src/net/forwarder.cpp:203-218 | host text and port can be read back from a key by splitting at its last colon |
| ClientKey.KeysAreInjective | src/net/forwarder.cpp:203-218 | keys are equal if and only if host texts and ports are, although IPv6 hosts contain colons |
| OsCalls.ConnectToEndpoints | src/net/forwarder.cpp:99-133 | endpoints are tried in order, the first that connects wins, every failed candidate is closed, no other handle is touched |
| OsCalls.CreateUdpSocketForEndpoint | src/net/forwarder.cpp:135-172 | the first endpoint that fits and yields a socket is the target; oversized ones are passed over |
| OsCalls.ListenCandidate | src/net/forwarder.cpp:248-281 | a candidate is kept only after the reuse of its address, its bind and, for TCP only, its listen were granted, in this order and nothing else; if one is refused it is closed at once |
| OsCalls.ListenOnFirst | src/net/forwarder.cpp:247-319 | Start listens on the socket of the first endpoint for which all that was granted, so that it is bound whatever the protocol, and closes all other candidates |
| OsCalls.SearchAnswers | src/net/forwarder.cpp:99-133 | a search returns no socket exactly when every endpoint was tried in vain; otherwise all before the last one tried were: the outcomes the machines allow |
| OsCalls.SearchIsPick | src/net/forwarder.cpp:135-172 | the search of the method is the choice the UDP machine makes |
| UdpMachine.Pick | src/net/forwarder.cpp:141-163 | the chosen index is the first that fits and for which a socket is made, if there is one |
| UdpMachine.NoneIsPassedOver | src/net/forwarder.cpp:141-163 | endpoints with IPv4 or IPv6 addresses all fit, so that the first for which a socket is made is chosen |
| UdpTable.UdpSessions.Select | src/net/forwarder.cpp:659-686 | the erase-while-iterating loop removes exactly the sessions that are forced, marked or overdue, marks them, lists each once and leaves the others as they are |
| UdpTable.UdpSessions.CloseAll | src/net/forwarder.cpp:688-713 | the listed sockets are shut down and closed one after the other, their handles forgotten, their receivers joined |
| UdpTable.UdpSessions.Cleanup | src/net/forwarder.cpp:653-714 | a whole sweep: the table keeps, unchanged, exactly the sessions that are neither forced, nor marked, nor silent for longer than the timeout; every other session is marked, shut down, closed for good and joined; the open handles shrink by exactly theirs |
| UdpTable.UdpSessions.MaybeCleanup | src/net/forwarder.cpp:644-651 | sweeps exactly when the cleanup interval has passed, and then notes the time; otherwise nothing changes |
| UdpTable.UdpSessions.Add | src/net/forwarder.cpp:558-581 | a new session enters the table with its own open socket, the clock reading and a started receiver; no other session is touched |
| UdpTable.UdpSessions.Emplace | src/net/forwarder.cpp:570-581 | if the client has got a session in the meantime that one is used and the socket just made is closed; otherwise the new session enters the table |
| UdpTable.UdpSessions.GetOrCreate | src/net/forwarder.cpp:530-582 | a known client gets its session; an unknown one gets a new session for the first usable target, or none and the table and the open handles stay as they were |
| UdpEviction.OverdueSessionIsRemoved | src/net/forwarder.cpp:449-511 | in every run of the UDP forwarder whose MaybeCleanup readings are at most G ms apart, a session that is marked, or silent for longer than the timeout, at moment e is out of the table before any reading at e + 1000 + G or later |
| UdpPace.OneReadingPerReturn | src/net/forwarder.cpp:463-508 | between two consecutive returns of the loop's receive call, with the forwarder up, the loop reads the clock for a sweep exactly once, datagram or not |
| UdpPace.OverdueIsGoneByNextReturn | src/net/forwarder.cpp:463-508 | a session marked, or silent for longer than the timeout, at moment e is out of the table by the return that follows a return at e + 1000 or later, with nothing taken for granted about clock readings |
| UdpPace.EveryAnswerIsTaken | src/net/forwarder.cpp:449-511 | while the forwarder is up the loop waits on the open listening socket and takes every datagram, timeout, socket, clock reading and outcome of a send |
| UdpPace.LoopComesBack | src/net/forwarder.cpp:449-511 | and is back at its receive call after boundedly many steps of its own, never stuck on the way |
| UdpLoopLaw.BookIsKept | src/net/forwarder.cpp:449-511 | in every run, restarts included, the loop looks up, stamps, sends and checks for a sweep in this order for each datagram, notes times 1000 ms apart, and passes on exactly the datagrams whose send succeeded |
| UdpLoopLaw.EveryDatagramIsSent | src/net/forwarder.cpp:463-508 | datagrams received equal datagrams handed to a send plus those refused plus the one in hand; those passed on are the successful sends |
| UdpLoopLaw.OnlyStrangersAreRefused | src/net/forwarder.cpp:541-556 | a datagram is refused only if its client has no session and no endpoint of the cached list fits and yields a socket |
| UdpReceiverLaw.ReceiverKeepsOrder | src/net/forwarder.cpp:584-642 | in every run a receiver checks flag and mark before each receive, goes on after a timeout, and its session's replies are exactly those taken and then sent with success, in order |
| UdpReceiverLaw.MarkedForACause | src/net/forwarder.cpp:492-641 | a session in the table is marked, or about to be, if and only if the loop failed to send for it, or its receiver failed or found the forwarder stopping |
| UdpReceiverLaw.FailuresAreOwn | src/net/forwarder.cpp:585-641 | a receiver's failure is a failed receive or send of its own; a timeout is none; and each such failure counts |
| UdpReceiverLaw.EndMarks | src/net/forwarder.cpp:641 | a receiver that has left its loop has nothing to do but to mark its session |
| UdpReceiverLaw.StampIsLast | src/net/forwarder.cpp:478-638 | a session's stamp is the time last read with a datagram of its client in hand, or by its receiver after a reply |
| UdpReceiverLaw.ReceiverServes | src/net/forwarder.cpp:584-642 | the receiver of a session in the table waits on that session's open socket, takes every answer, and is back there after at most five steps |
| UdpShutdown.ShutBeforeClosed | src/net/forwarder.cpp:326-708 | no session's socket and no listener is closed that was not shut down before, and none is shut down while in use |
| UdpStartLaw.StartKeepsOrder | src/net/forwarder.cpp:226-361 | in every run the flag is up exactly from the grant of a candidate to the call of Stop; the candidates before it were all tried in vain; Stop does its actions in order, each once |
| UdpStartLaw.StartTakesEveryAnswer | src/net/forwarder.cpp:226-319 | Start takes every outcome of resolution, socket and request, and Stop can be called whenever the forwarder is up |
| StartLaw.StartEnds | src/net/forwarder.cpp:247-319 | Start succeeds with a granted candidate and gives up only when all have been tried |
| UdpStartLaw.EveryResolutionCounts | src/net/forwarder.cpp:391-447 | the target list is the last good one of all resolutions returned in the run, to Start or to the refresher |
| UdpStartLaw.RefresherServes | src/net/forwarder.cpp:419-447 | while the forwarder is up the refresher is at work, and every fourth step of it is a tick that takes whatever the resolver returns |
| UdpSafety.StepKeepsInv | src/net/forwarder.cpp:226-714 | every step of every thread, Start, Stop and restart included, keeps the invariant of the UDP forwarder |
| UdpTheorems.DatagramsStayInTheirSession | src/net/forwarder.cpp:473-506 | in every interleaving and with handle reuse, a reply goes to the client whose session's socket it arrived on, and a datagram leaves on its client's socket for its session's target |
| UdpTheorems.ThreadsReadTheirOwnSocket | src/net/forwarder.cpp:584-597 | a receiver is never inside recvfrom on another session's socket, even with a stale number; the loop reads the listener or nothing |
| UdpOrder.ForwardsAreArrivals | src/net/forwarder.cpp:449-511 | over every run, the datagrams passed to targets, with the clients they are credited to, are a subsequence of those received: none is invented, changed, repeated or reordered |
| UdpOrder.RepliesAreArrivals | src/net/forwarder.cpp:584-642 | the same for the replies of each session and the datagrams its receiver took |
| UdpTheorems.SocketsAreConserved | src/net/forwarder.cpp:247-361 | no socket is closed twice or while not open, every open handle has an owner, and after Stop every socket ever made was closed exactly once |
| UdpTheorems.NothingSurvivesStop | src/net/forwarder.cpp:321-361 | when Start begins and after Stop, the table is empty, every thread is joined and no session holds a handle |
| UdpTheorems.StopAlwaysReturns | src/net/forwarder.cpp:321-361 | from every reachable state in which Stop has cleared the running flag, every long enough schedule brings Stop to its end, and in no state on the way do all threads wait for a datagram |
| UdpLocks.NoJoinUnderLock | src/net/forwarder.cpp:534-580 | with the table lock taken and released by each region, no thread ever joins another one while it holds the lock, and every such run is a run of the machine |
| UdpLocks.TableNeedsLock | src/net/forwarder.cpp:531-686 | a step of a thread that does not hold the lock neither looks at the table nor changes it |
| UdpLocks.StopAlwaysReturns | src/net/forwarder.cpp:321-361 | Stop returns under every long enough schedule with the lock, too, and waiting for the lock makes no dead end |
| UdpTheorems.TableIsSound | src/net/forwarder.cpp:530-582 | one session per client; sessions that still own an open socket, in the table or being swept, have it under different handles; an exited receiver left a mark; whatever left the table is being swept or joined; a sweep meets only started receivers |
| UdpTheorems.BindingLasts | src/net/forwarder.cpp:513-582 | a client keeps its session from step to step unless a sweep finds it marked, silent for longer than the timeout, or is forced, and then loses it |
| UdpBinding.DatagramsKeepTheirSession | src/net/forwarder.cpp:473-506 | over any run without an eviction in between, all datagrams of a client use the same session and leave on its socket |
| UdpTheorems.ActiveSessionIsKept | src/net/forwarder.cpp:659-686 | while the forwarder is up, an unmarked session is never evicted when its last activity is at most the timeout ago |
| UdpTheorems.SweepsAreSpaced | src/net/forwarder.cpp:644-651 | over whole runs, restarts included, a periodic sweep begins at least 1000 ms after any time noted before; a reading of MaybeCleanup leads to a sweep exactly when the interval has passed |
| UdpTheorems.CountersAreExact | src/net/forwarder.cpp:492-506 | the 64-bit packet and byte counters equal count and sum of the successful sends in each direction |
| UdpTheorems.TargetIsPinned | src/net/forwarder.cpp:541-568 | a session's target is the first endpoint of a list once cached for which a socket could be made, and stays that over every later run |
| UdpBinding.SnapshotIsCurrent | src/net/forwarder.cpp:541-581 | that list is the cache as it was at the session's own snapshot step; from there to the step that inserted the session the loop did nothing but make it |
| UdpTheorems.CacheIsLastGood | src/net/forwarder.cpp:541-577 | the cache is the last good resolution and never empty while the forwarder is up, so the empty-snapshot branch and the lost-insert branch are dead |
| UdpStop.StepLowersRank | src/net/forwarder.cpp:321-361 | once the running flag is down, every step of every thread lowers a rank |
| UdpStop.NeverStuck | src/net/forwarder.cpp:321-361 | until Stop has returned some thread can step, given that receive calls time out |
| RelayProgram.RunConserves | src/net/forward_session.cpp:10-40 | along every run, delivered bytes followed by the unsent rest of the buffer are the bytes taken; after a failed send they are still a prefix |
| RelayProgram.FailureIsFinal | src/net/forward_session.cpp:34-38 | nothing is delivered after a failed send |
| RelayProgram.SendAll | src/net/forward_session.cpp:10-20 | under any partial sends the chunk is handed over completely and in order, or the send failed |
| RelayProgram.RelayOneDirection | src/net/forward_session.cpp:22-40 | the program returns, its calls are a complete run of the automaton, and unless a send failed the destination was handed exactly the source's stream |
| RelaySession.StepKeepsInv | src/net/forward_session.cpp:44-95 | every step of worker, relay threads, Stop, peers and the rest of the process keeps the session's invariant |
| RelaySession.NoUseAfterClose | src/net/forward_session.cpp:54-95 | every Recv, Send, Shutdown and Close of a session reaches the open socket it was meant for, even if closed numbers are given away at once |
| RelaySession.FinishedMeansClosed | src/net/forward_session.cpp:73-95 | a finished session has closed both sockets exactly once, forgotten both handles and joined both threads |
| RelaySession.DeliveredIsPrefix | src/net/forward_session.cpp:22-40 | in both directions, at every moment, delivered bytes are a prefix of what the peer sent |
| RelaySession.CleanEndIsComplete | src/net/forward_session.cpp:22-40 | without Stop or a failed call, a direction that returned, or a destination whose writing half is shut, has the whole stream; the other direction is untouched |
| RelayEnding.TroubleWindsUp | src/net/forward_session.cpp:25-39 | an abnormal end of either direction, or a completed Stop, leaves no thread waiting for a peer |
| RelayEnding.StepLowersRank | src/net/forward_session.cpp:54-95 | while winding up, every step of the session lowers a rank of remaining bytes and steps, and nothing else raises it |
| RelayEnding.WindingLasts | src/net/forward_session.cpp:54-95 | winding up is never undone |
| RelayEnding.StepsAreBounded | src/net/forward_session.cpp:54-95 | whatever peers do, at most rank-many steps are left |
| RelayEnding.NeverStuck | src/net/forward_session.cpp:54-95 | until it has finished, such a session has a step that waits for nobody |
| RelayEnding.SessionFinishes | src/net/forward_session.cpp:75-83 | so the worker closes the sockets and reports that it is finished |
| RelayEnding.EveryAnswerIsTaken | src/net/forward_session.cpp:10-40 | a relay thread takes any bytes, end or error, goes on to send all it took, and only then receives again |
| RelayEnding.NobodyWaitsWithoutNeed | src/net/forward_session.cpp:52-83 | the worker starts both directions at once and waits only for their ends or for Stop; Stop waits only for the worker's closing, and a later call does nothing |
| RelayEnding.DrainedSessionFinishes | src/net/forward_session.cpp:22-83 | once both peers have sent their last byte a session finishes by itself in boundedly many steps, and without Stop or a failed call each side was then given all the other sent |
| RelayChain.ChainDeliversPrefix | README.md:168-201 | the last of any number of relays in a row has delivered a prefix of what the first client sent |
| RelayChain.ChainDeliversAll | README.md:168-201 | if every hop drained cleanly and every link carried all it was given, it has delivered exactly that stream |
| RelayChain.ReturnDeliversPrefix | README.md:168-201 | the same on the way back: the first client has got a prefix of what the last upstream sent |
| RelayChain.ReturnDeliversAll | README.md:168-201 | and exactly that stream, if every hop drained cleanly and every link carried all it was given |
| TcpTable.ForwardSession.CloseSockets | src/net/forward_session.cpp:85-95 | closes the handles that are still valid, and only those, and forgets both |
| TcpTable.ForwardSession.Join | src/net/forward_session.cpp:63-71 | waits for a started worker to close its sockets and finish, and leaves any other session alone |
| TcpTable.TcpSessions.Insert | src/net/forwarder.cpp:751-764 | both maps get the next 64-bit number; it is unused as long as the counter has not wrapped around; the table invariant holds in any case |
| TcpTable.TcpSessions.TakeFinished | src/net/forwarder.cpp:773-789 | the erase-while-iterating loop takes exactly the finished sessions out of both maps and lists each with its peer |
| TcpTable.TcpSessions.CleanupFinished | src/net/forwarder.cpp:770-797 | reaping: exactly the finished sessions leave, are joined and named; no socket and no other session is touched |
| TcpTable.TcpSessions.StopSessions | src/net/forwarder.cpp:340-360 | every session is asked to stop and shut down before the first one is waited for; each finishes and is joined; exactly the table's sockets are closed; both maps end empty |
| TcpTable.CloseAllEndsKeepsValid | src/net/forward_session.cpp:85-95 | closing the sockets of different sessions one after the other closes these and nothing else, each once |
| TcpSafety.StepKeepsInv | src/net/forwarder.cpp:226-797 | every step of every thread keeps the invariant of the TCP forwarder |
| TcpAcceptLaw.BookIsKept | src/net/forwarder.cpp:716-768 | in every run, restarts included, the accept thread reaps once before each accept, copies the list once for each client and tries it in order |
| TcpAcceptLaw.EveryEndpointIsTried | src/net/forwarder.cpp:104-748 | a client is rejected only if every endpoint of its copy of the list was tried once, in order, and failed; a session joins the client accepted last to the first endpoint that was granted |
| TcpAcceptLaw.ClientsAreAccounted | src/net/forwarder.cpp:716-768 | clients accepted equal sessions made plus clients rejected plus the one in hand |
| TcpAcceptLaw.AnswersAreTaken | src/net/forwarder.cpp:99-133 | and whatever a search through the list can come to, the thread can come to by its own acts |
| TcpAcceptLaw.EveryAnswerIsTaken | src/net/forwarder.cpp:716-768 | while the forwarder is up the thread waits on the open listening socket and takes every client, failure, socket and outcome of a connection |
| TcpAcceptLaw.AcceptComesBack | src/net/forwarder.cpp:716-768 | and is back at accept after boundedly many steps of its own, never stuck on the way |
| TcpStartLaw.StartKeepsOrder | src/net/forwarder.cpp:226-361 | as for UDP, with the sessions all asked to stop, then all joined, then the maps cleared |
| TcpStartLaw.StartTakesEveryAnswer | src/net/forwarder.cpp:226-319 | Start takes every outcome, and Stop can be called whenever the forwarder is up |
| TcpStartLaw.ListenerShutBeforeClosed | src/net/forwarder.cpp:326-328 | the listener is not closed before it was shut down, and not shut down while the forwarder is up |
| TcpStartLaw.EveryResolutionCounts | src/net/forwarder.cpp:391-447 | the target list is the last good one of all resolutions returned in the run |
| TcpStartLaw.RefresherServes | src/net/forwarder.cpp:419-447 | while the forwarder is up the refresher is at work, and every fourth step of it is a tick |
| TcpTheorems.MapsAgree | src/net/forwarder.cpp:751-789 | at every moment the two maps have the same keys and agree, and the next number is not in use |
| TcpTheorems.ReapingIsExact | src/net/forwarder.cpp:770-789 | in every reachable state an entry survives reaping, in either map, exactly if its session has not finished |
| TcpTheorems.SessionsAreJoined | src/net/forwarder.cpp:340-356 | a session leaves the table only to be joined; Stop meets only started sessions |
| TcpTheorems.SocketsAreConserved | src/net/forwarder.cpp:247-361 | listen candidates, connect candidates, rejected clients and session pairs: nothing is closed twice, every open handle has an owner, and after Stop each was closed exactly once |
| TcpTheorems.NothingSurvivesStop | src/net/forwarder.cpp:321-361 | when Start begins and after Stop, both maps are empty and every thread is joined |
| TcpTheorems.ThreadsUseTheirOwnSockets | src/net/forwarder.cpp:716-768 | accept is called on the listener or on nothing, and a relaying session's numbers mean its own sockets |
| TcpTheorems.CacheIsLastGood | src/net/forwarder.cpp:731-740 | the cache is never empty while the forwarder is up, so the accept thread never refreshes it or rejects a client for lack of targets |
| TcpTheorems.StopAlwaysReturns | src/net/forwarder.cpp:321-361 | in every infinite schedule from a reachable stopping state Stop returns, however long relay threads go on in between, if the schedule does not stand still for ever while a thread can go on by itself |
| TcpTheorems.StopIsNeverStuck | src/net/forwarder.cpp:321-361 | in every state on the way some thread has a step that waits neither for a client nor for the network; if it is the worker of a session that relays, that session comes to it in full detail whatever its peers do |
| TcpLocks.NoJoinUnderLock | src/net/forwarder.cpp:340-360 | with the table lock taken and released by each region, no thread ever joins another one while it holds the lock, and every such run is a run of the machine |
| TcpLocks.TablesNeedLock | src/net/forwarder.cpp:340-789 | a step of a thread that does not hold the lock neither looks at the two maps nor changes them |
| TcpLocks.StopAlwaysReturns | src/net/forwarder.cpp:321-361 | Stop returns in every fair schedule with the lock, too; that the lock holds nobody up is proved, not assumed |
| TcpStop.StepLowers | src/net/forwarder.cpp:321-361 | once the running flag is down, every step lowers a lexicographic rank |
| TcpRelay.SessionRefines | src/net/forward_session.cpp:54-95 | forward simulation: each step of a session in full detail is a step of its worker with the same effect on the kernel, a completed call of Stop, or no step of the TCP machine |
| TcpRelay.FlagsAreMeant | src/net/forward_session.cpp:54-95 | the finished flag is the phase Finished, the worker holds the lock while it closes, and a session still running after a completed Stop has both sockets shut down |
| TcpRelay.ShutSessionCloses | src/net/forward_session.cpp:54-83 | a session that Stop has shut down has boundedly many steps left and, until it has finished, one that waits for nobody |
| TcpComposed.OthersSpareSession | src/net/forwarder.cpp:226-361 | no step of the forwarder but those of its own worker touches a session's sockets |
| TcpComposed.RunStaysJoint | src/net/forwarder.cpp:751-797 | over every run of a forwarder with one of its sessions in full detail, from the moment it is inserted, that session is a session of RelaySession over the forwarder's own kernel and matches its entry |
| TcpComposed.NoUseAfterClose | src/net/forward_session.cpp:54-95 | so in a running forwarder, with all threads reusing numbers, no call of any session reaches a socket that is not its own |
| TcpComposed.DeliveredIsPrefix | src/net/forward_session.cpp:22-40 | and each session delivers a prefix of what its peers sent |
| TcpComposed.SessionIsFree | src/net/forward_session.cpp:54-95 | the forwarder holds no session back: each step a session can take, it can take there (the end of a call of Stop, when Stop is calling it) |

## Left out

- Real sockets, `getaddrinfo`, `getnameinfo`, socket options, and the Windows and POSIX variants: the environment may give any answer, partial send, error, timeout, handle number or resolver result.
- The C++ memory model: atomics and the unlocked fields `listen_socket_` and `upstream_socket` are read and written in single sequentially consistent steps, and a region under a lock is one step (the classes look inside these regions; UdpLocks and TcpLocks add the taking and the release of the table locks). The lock of the target list has no such model: its regions copy or assign the list and call nothing.
- Reading the clock and storing it, and a send and the counting of it, are one step each.
- The socket a reply leaves by while Stop closes the listener; the claims are about the client it is addressed to.
- Handle reuse by other code of the process while a forwarder is at work (RelaySession, taken by itself, does allow it).
- A client address that cannot be printed, whose key is then "unknown".
- Datagrams and reads of length 0: an empty datagram is not forwarded and ends a receiver, as in the code.
- Thread creation failures, allocation failures, logging, labels for the log, the reported listening address, command line and enum parsing.
- The outer `Forwarder`: its mutex makes Start and Stop follow one another, and its refusal of a second Start leaves everything as it was, so the machines have no step for it.
- The effective family of the listening side.
- UdpTheorems.ActiveSessionIsKept: takes both loads of the stamp as one read; Clock.IdleOnTwoReads says when two reads make a difference.
- TcpTable.ForwardSession.Join: the worker's last actions are taken to happen inside Join; how they interleave with Stop is the subject of RelaySession.
- TcpTheorems.StopAlwaysReturns: assumes fairness, since the relay threads of a session that nobody has stopped may go on for ever; StopIsNeverStuck shows that there is always a thread for the schedule to choose. Both are for fewer than 2^64 accepted sessions; TcpTable.TcpSessions.Insert covers the counter's wrap-around.
- RelaySession.CleanEndIsComplete: claims nothing after Stop or a failed call, since then a destination may see the end of a stream that is not complete.
- RelayEnding.TroubleWindsUp: after a receive error only the destination is shut down, so that the other direction's send to the source cannot wait rests on the assumption that a connection with a receive error is broken for sending, too.
- UdpStop.NeverStuck: a resolver call that is under way is taken to come back, if only with a failure; the same holds for TcpStop.NeverStuck.
- RelayEnding.NeverStuck: takes it from the environment that a shut reading half reports the end once drained and that a send on a shut or broken connection fails.
- A send on a shut or reset connection is taken to return a failure. On POSIX the call passes no flag against SIGPIPE (src/net/socket_platform.cpp:202) and only SIGINT and SIGTERM are handled (src/main.cpp:186-189), so there such a send can end the process instead; the results on winding up are about processes that survive it.
- RelayEnding.SessionFinishes: says nothing about a session whose peers stay silent and that nobody stops; such a session is meant to go on.
- UdpEviction.OverdueSessionIsRemoved: takes the distance between clock readings as given; it depends on the receive timeout and on the time a sweep needs to join receivers.  UdpPace.OverdueIsGoneByNextReturn needs no such distance, but counts in returns of the receive call.
- UdpPace.OverdueIsGoneByNextReturn: the time of a return is the last time any thread has read by then, since the receive call itself tells no time.
- UdpPace.LoopComesBack: bounds steps, not time; a sweep waits for the receivers it joins, whose steps UdpReceiverLaw.ReceiverServes and UdpStop.NeverStuck bound and grant.
- TcpAcceptLaw.AcceptComesBack: for target lists of at most m endpoints, for any m, and fewer than 2^64 accepted sessions.
- Socket options, the timeout of 200 ms on UDP sockets and dual-stack listening: OsCalls logs the calls that decide whether a candidate is kept.
- Endpoints.SortEndpoints: for lists that mix IPv4, IPv6 and unknown families the standard leaves the sort undefined, so nothing is claimed (Endpoints.ComparatorIsStrictWeak gives the exact condition).
