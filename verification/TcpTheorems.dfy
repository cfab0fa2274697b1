/** The promises of the TCP forwarder, in every reachable state. */
module TcpTheorems {
  import opened Sockets
  import opened Endpoints
  import opened TargetCache
  import opened TcpMachine
  import opened TcpSafety
  import opened TcpCache
  import TcpRelay
  import TcpStop

  lemma ReachableIsCached(cfg: Config, s: State)
    requires Reachable(cfg, s)
    ensures Inv(s) && Cached(cfg, s)
  {
    var run :| After(cfg, INITIAL, run) == Some(s);
    RunKeepsCached(cfg, INITIAL, run);
  }

  /** At every moment the two maps have the same keys and agree on who the peer is; the key of a
      session is its serial number, so an insertion never replaces another session. */
  lemma MapsAgree(cfg: Config, s: State)
    requires Reachable(cfg, s)
    ensures s.table.Keys == s.peers.Keys
    ensures forall id :: id in s.table ==>
              && 0 < id <= s.nextId && s.table[id] < |s.sessions| && s.peers[id] == s.sessions[s.table[id]].peer
    ensures forall id, other :: id in s.table && other in s.table && id != other ==> s.table[id] != s.table[other]
    ensures s.nextId + 1 !in s.table
  {
    ReachableIsInv(cfg, s);
  }

  /** Reaping takes out of both maps exactly the sessions that have finished. */
  lemma ReapingIsExact(cfg: Config, s: State, a: Act, id: nat)
    requires Reachable(cfg, s) && s.accept.Reap? && ReapNext(s, a).Some? && id in s.table
    ensures s.table[id] < |s.sessions|
    ensures id in ReapNext(s, a).value.table <==> !s.sessions[s.table[id]].phase.Finished?
    ensures id in ReapNext(s, a).value.peers <==> !s.sessions[s.table[id]].phase.Finished?
    ensures id in ReapNext(s, a).value.table ==> ReapNext(s, a).value.table[id] == s.table[id]
  {
    ReachableIsInv(cfg, s);
    ReapFrame(s, a);
    assert Listed(s, s.table[id]);
  }

  /** A session is dropped from the table only after it was started, and it is joined before the
      accept thread goes on; Stop meets only sessions that were started. */
  lemma SessionsAreJoined(cfg: Config, s: State, n: nat)
    requires Reachable(cfg, s) && n < |s.sessions|
    ensures InTable(s, n) || (s.accept.Reaping? && n in s.accept.list) || s.sessions[n].phase.Joined?
    ensures s.sessions[n].phase.Fresh? ==> s.accept == Start(n) && InTable(s, n)
    ensures Ending(s) ==> !s.sessions[n].phase.Fresh?
  {
    ReachableIsInv(cfg, s);
    assert PlaceOk(s, n);
  }

  /** Sockets are conserved: nothing that is not open is ever closed, every open handle has an owner
      (the listener, a candidate, the accept thread or a session), and when the forwarder is
      stopped every socket it ever made or accepted was closed exactly once. */
  lemma SocketsAreConserved(cfg: Config, s: State)
    requires Reachable(cfg, s)
    ensures s.k.stray == 0
    ensures forall h :: h in s.k.fds ==> Held(s, h)
    ensures forall x: nat {:trigger s.k.closes[x]} :: s.k.closes[x] <= 1
    ensures s.control.Stopped? ==> s.k.fds == map[] && forall x :: 0 <= x < s.k.next ==> s.k.closes[x] == 1
  {
    ReachableIsInv(cfg, s);
    if s.control.Stopped? {
      AllJoined(s);
      assert forall h :: !Held(s, h);
      assert forall h :: h !in s.k.fds;
      assert forall x :: 0 <= x < s.k.next ==> !IsOpen(s.k, x);
    }
  }

  /** When Start begins and when Stop has returned, the tables are empty and no thread is left. */
  lemma NothingSurvivesStop(cfg: Config, s: State)
    requires Reachable(cfg, s) && (s.control.Stopped? || s.control.Trying? || s.control.Candidate?)
    ensures s.table == map[] && s.peers == map[] && s.accept.Off? && s.resolver.Off? && s.listen == INVALID
    ensures !s.running
    ensures forall n :: 0 <= n < |s.sessions| ==> s.sessions[n].phase.Joined?
  {
    ReachableIsInv(cfg, s);
    AllJoined(s);
  }

  /** The accept thread and the sessions use only their own sockets, although numbers are reused:
      accept is called on the listening socket or on nothing, and a session's numbers mean its own
      sockets for as long as it relays. */
  lemma ThreadsUseTheirOwnSockets(cfg: Config, s: State)
    requires Reachable(cfg, s)
    ensures s.accept.Have? && s.accept.h in s.k.fds ==> s.k.fds[s.accept.h] == s.listenSock
    ensures s.accept.Accepting? && s.accept.on.Some? ==> s.accept.on.value == s.listenSock
    ensures forall n :: 0 <= n < |s.sessions| && s.sessions[n].phase.Relaying? ==>
              Names(s.k, s.sessions[n].client.fd, s.sessions[n].client.x)
              && Names(s.k, s.sessions[n].upstream.fd, s.sessions[n].upstream.x)
  {
    ReachableIsInv(cfg, s);
    forall n | 0 <= n < |s.sessions| && s.sessions[n].phase.Relaying?
      ensures Names(s.k, s.sessions[n].client.fd, s.sessions[n].client.x)
      ensures Names(s.k, s.sessions[n].upstream.fd, s.sessions[n].upstream.x)
    {
      assert SessionOk(s.k, s.sessions[n]);
    }
  }

  /** The cache is the last good resolution, holds allowed families only, and is never empty while
      the forwarder is up, so the accept thread never refreshes it. */
  lemma CacheIsLastGood(cfg: Config, s: State)
    requires Reachable(cfg, s)
    ensures s.cache == LastGood(cfg.preference, s.resolutions)
    ensures forall e :: e in s.cache ==> Allowed(cfg.preference, e)
    ensures !s.control.Stopped? ==> s.cache != []
    ensures !s.accept.Refresh?
  {
    ReachableIsCached(cfg, s);
    LastGoodIsAllowed(cfg.preference, s.resolutions);
  }

  /** Stop, called in any reachable running state, returns in every fair schedule, however long relay
      threads keep relaying in between (while fewer than 2^64 sessions are accepted). */
  lemma StopAlwaysReturns(cfg: Config, schedule: nat -> State)
    requires Reachable(cfg, schedule(0)) && TcpStop.Stopping(schedule(0))
    requires forall n: nat :: TcpStop.StepAt(cfg, schedule, n)
    requires TcpStop.Fair(cfg, schedule) && forall n: nat :: TcpStop.Spare(schedule, n)
    ensures exists n :: n > 0 && schedule(n).control.Stopped?
  {
    ReachableIsCached(cfg, schedule(0));
    TcpStop.StopReturns(cfg, schedule, 0);
  }

  /** A worker whose step is granted because its session was shut down takes it by itself. */
  ghost predicate Granted(s: State, step: Step) {
    step.Worker? && step.n < |s.sessions| && s.sessions[step.n].phase.Relaying? ==>
      TcpRelay.ClosesByItself(s.sessions[step.n])
  }

  /** No state on the way is a dead end: some thread has a step that waits neither for a client nor for
      the network, and if it is the worker of a session that relays, then in full detail that session
      comes to the step whatever its peers do. */
  lemma StopIsNeverStuck(cfg: Config, s: State)
    requires Reachable(cfg, s) && TcpStop.Stopping(s) && s.nextId + 1 < U64
    ensures exists step :: Next(cfg, s, step).Some? && TcpStop.Prompt(s, step) && Granted(s, step)
  {
    ReachableIsCached(cfg, s);
    var step := TcpStop.NeverStuck(cfg, s);
    if step.Worker? && step.n < |s.sessions| && s.sessions[step.n].phase.Relaying? {
      TcpRelay.ShutSessionCloses(s.sessions[step.n]);
    }
    assert Granted(s, step);
  }
}
