/** The promises of the UDP forwarder, in every reachable state. */
module UdpTheorems {
  import opened Sockets
  import opened Endpoints
  import opened TargetCache
  import opened UdpMachine
  import opened UdpSafety
  import opened UdpHistory
  import UdpStop

  ghost predicate Good(cfg: Config, s: State) {
    Inv(cfg, s) && History(cfg, s) && Cached(cfg, s)
  }

  lemma StepKeepsGood(cfg: Config, s: State, step: Step)
    requires Good(cfg, s) && Next(cfg, s, step).Some?
    ensures Good(cfg, Next(cfg, s, step).value)
  {
    StepKeepsInv(cfg, s, step);
    StepKeepsHistory(cfg, s, step);
    StepKeepsCached(cfg, s, step);
  }

  lemma {:induction false} RunKeepsGood(cfg: Config, s: State, run: seq<Step>)
    requires Good(cfg, s) && After(cfg, s, run).Some?
    ensures Good(cfg, After(cfg, s, run).value)
    decreases run
  {
    if run != [] {
      StepKeepsGood(cfg, s, run[0]);
      RunKeepsGood(cfg, Next(cfg, s, run[0]).value, run[1..]);
    }
  }

  lemma ReachableIsGood(cfg: Config, s: State)
    requires Reachable(cfg, s)
    ensures Good(cfg, s)
  {
    var run :| After(cfg, INITIAL, run) == Some(s);
    InitialInv(cfg);
    RunKeepsGood(cfg, INITIAL, run);
  }

  /** Replies are demultiplexed correctly although handle numbers are reused: a reply taken from a
      session's socket goes to that session's client, and to no other; a client's datagram leaves
      on the socket of that client's session, for that session's target. */
  lemma DatagramsStayInTheirSession(cfg: Config, s: State)
    requires Reachable(cfg, s)
    ensures forall r, i :: r in s.replies && 0 <= i < |s.sessions| && s.sessions[i].sock == r.sock ==>
              s.sessions[i].client == r.peer
    ensures forall f, i :: f in s.forwards && 0 <= i < |s.sessions| && s.sessions[i].sock == f.sock ==>
              s.sessions[i].client == f.peer && s.sessions[i].target == f.target
    ensures forall r :: r in s.replies ==> OwnReply(s, r)
    ensures forall f :: f in s.forwards ==> OwnForward(s, f)
  {
    ReachableIsGood(cfg, s);
    OwnersAreUnique(s);
  }

  lemma OwnersAreUnique(s: State)
    requires Distinct(s)
    ensures forall r, i :: OwnReply(s, r) && 0 <= i < |s.sessions| && s.sessions[i].sock == r.sock ==>
              s.sessions[i].client == r.peer
    ensures forall f, i :: OwnForward(s, f) && 0 <= i < |s.sessions| && s.sessions[i].sock == f.sock ==>
              s.sessions[i].client == f.peer && s.sessions[i].target == f.target
  {
  }

  /** A receiver inside recvfrom is inside its own session's socket or was refused; one that still
      holds a handle number holds one that now means its own socket or nothing at all.  The loop
      reads the listening socket or nothing. */
  lemma ThreadsReadTheirOwnSocket(cfg: Config, s: State)
    requires Reachable(cfg, s)
    ensures forall i :: 0 <= i < |s.sessions| ==>
              var z := s.sessions[i];
              && (z.thread.Have? && z.thread.h in s.k.fds ==> s.k.fds[z.thread.h] == z.sock)
              && (z.thread.Blocked? && z.thread.on.Some? ==> z.thread.on.value == z.sock)
    ensures s.loop.Have? && s.loop.h in s.k.fds ==> s.k.fds[s.loop.h] == s.listenSock
    ensures s.loop.Blocked? && s.loop.on.Some? ==> s.loop.on.value == s.listenSock
  {
    ReachableIsGood(cfg, s);
    forall i | 0 <= i < |s.sessions| ensures
      var z := s.sessions[i];
      && (z.thread.Have? && z.thread.h in s.k.fds ==> s.k.fds[z.thread.h] == z.sock)
      && (z.thread.Blocked? && z.thread.on.Some? ==> z.thread.on.value == z.sock)
    {
      assert SessionOk(s.sessions[i], PlaceOf(s, i), s.k);
    }
  }

  /** Sockets are conserved: nothing that is not open is ever closed, every open handle has an
      owner, and when the forwarder is stopped every socket it ever made was closed exactly once. */
  lemma SocketsAreConserved(cfg: Config, s: State)
    requires Reachable(cfg, s)
    ensures s.k.stray == 0
    ensures forall h :: h in s.k.fds ==> Held(s, h)
    ensures forall x: nat {:trigger s.k.closes[x]} :: s.k.closes[x] <= 1
    ensures s.control.Stopped? ==> s.k.fds == map[] && forall x :: 0 <= x < s.k.next ==> s.k.closes[x] == 1
  {
    ReachableIsGood(cfg, s);
    if s.control.Stopped? {
      AllGone(s);
      assert forall h :: !Held(s, h);
      assert forall h :: h !in s.k.fds;
      assert forall x :: 0 <= x < s.k.next ==> !IsOpen(s.k, x);
    }
  }

  /** Outside a run of the forwarder, and so whenever Start begins and after Stop returns, the
      table is empty, no thread is left and no session holds a handle. */
  lemma NothingSurvivesStop(cfg: Config, s: State)
    requires Reachable(cfg, s) && !Serving(s)
    ensures s.table == map[] && s.loop.Off? && s.listen == INVALID
    ensures !s.control.JoinResolver? ==> s.resolver.Off?
    ensures forall i :: 0 <= i < |s.sessions| ==> s.sessions[i].thread.Joined? && s.sessions[i].handle == INVALID
  {
    ReachableIsGood(cfg, s);
    AllGone(s);
    forall i | 0 <= i < |s.sessions| ensures s.sessions[i].thread.Joined? && s.sessions[i].handle == INVALID {
      assert SessionOk(s.sessions[i], Gone, s.k);
    }
  }

  /** Stop, called in any reachable running state, returns under every schedule: no run as long as
      the rank can avoid it, and in no state on the way do all threads wait for a datagram. */
  lemma StopAlwaysReturns(cfg: Config, s: State, run: seq<Step>)
    requires Reachable(cfg, s) && UdpStop.Stopping(s) && After(cfg, s, run).Some?
    ensures |run| >= UdpStop.Rank(s) ==>
      exists n :: 0 <= n <= |run| && After(cfg, s, run[..n]).Some? && After(cfg, s, run[..n]).value.control.Stopped?
    ensures UdpStop.Stopping(After(cfg, s, run).value) ==>
              exists step :: Next(cfg, After(cfg, s, run).value, step).Some? && UdpStop.PromptAct(step.act)
  {
    ReachableIsGood(cfg, s);
    RunKeepsInv(cfg, s, run);
    if |run| >= UdpStop.Rank(s) { UdpStop.StopReturns(cfg, s, run); }
    if UdpStop.Stopping(After(cfg, s, run).value) {
      var step := UdpStop.NeverStuck(cfg, After(cfg, s, run).value);
    }
  }

  ghost predicate HoldsOpen(s: State, i: nat) {
    i < |s.sessions| && IsOpen(s.k, s.sessions[i].sock)
  }

  /** The table: one session per client; sessions that still own an open socket, in the table or being
      swept, have it under different handles; whatever left the table unswept has been joined; a
      receiver that ended left its session marked; a sweep meets only sessions whose receiver was
      started. */
  lemma TableIsSound(cfg: Config, s: State)
    requires Reachable(cfg, s)
    ensures forall c, d :: c in s.table && d in s.table && c != d ==>
              s.table[c] < |s.sessions| && s.table[d] < |s.sessions|
              && s.sessions[s.table[c]].handle != s.sessions[s.table[d]].handle
    ensures forall i, j :: 0 <= i < j < |s.sessions| && HoldsOpen(s, i) && HoldsOpen(s, j) ==>
              s.sessions[i].handle != s.sessions[j].handle
    ensures forall i :: 0 <= i < |s.sessions| && Listed(s, i) ==>
              Names(s.k, s.sessions[i].handle, s.sessions[i].sock) && IsOpen(s.k, s.sessions[i].sock)
    ensures forall i :: 0 <= i < |s.sessions| ==>
              Listed(s, i) || (s.loop.Sweep? && i in s.loop.list) || s.sessions[i].thread.Joined?
    ensures forall i :: 0 <= i < |s.sessions| && (s.sessions[i].thread.Exited? || s.sessions[i].thread.Joined?) ==>
              s.sessions[i].marked
    ensures s.loop.Select? || s.control.SelectAll? ==>
              forall i: nat :: Listed(s, i) ==> !s.sessions[i].thread.NotStarted?
  {
    ReachableIsGood(cfg, s);
    forall i | 0 <= i < |s.sessions|
      ensures Listed(s, i) || (s.loop.Sweep? && i in s.loop.list) || s.sessions[i].thread.Joined?
      ensures s.sessions[i].thread.Exited? || s.sessions[i].thread.Joined? ==> s.sessions[i].marked
      ensures IsOpen(s.k, s.sessions[i].sock) ==> Names(s.k, s.sessions[i].handle, s.sessions[i].sock)
      ensures Listed(s, i) ==> Names(s.k, s.sessions[i].handle, s.sessions[i].sock)
      ensures (s.loop.Select? || s.control.SelectAll?) && Listed(s, i) ==> !s.sessions[i].thread.NotStarted?
    {
      assert SessionOk(s.sessions[i], PlaceOf(s, i), s.k);
    }
    forall c, d | c in s.table && d in s.table && c != d
      ensures s.table[c] < |s.sessions| && s.table[d] < |s.sessions|
      ensures s.sessions[s.table[c]].handle != s.sessions[s.table[d]].handle
    {
      OwnHandles(s, s.table[c], s.table[d]);
    }
  }

  lemma OwnHandles(s: State, i: nat, j: nat)
    requires TableOk(s) && i < |s.sessions| && j < |s.sessions| && i != j && Listed(s, i) && Listed(s, j)
    ensures s.sessions[i].handle != s.sessions[j].handle
  {
    assert SessionOk(s.sessions[i], PlaceOf(s, i), s.k);
    assert SessionOk(s.sessions[j], PlaceOf(s, j), s.k);
    assert s.sessions[i].sock != s.sessions[j].sock;
  }

  /** Datagrams of one client keep using one session until a sweep finds it due; a sweep evicts
      exactly the sessions that are marked, have been silent for longer than the timeout, or are
      swept because the forwarder is stopping. */
  lemma BindingLasts(cfg: Config, s: State, step: Step, c: string, i: nat)
    requires Reachable(cfg, s) && Next(cfg, s, step).Some? && c in s.table && s.table[c] == i < |s.sessions|
    ensures var s', z := Next(cfg, s, step).value, s.sessions[i];
      if c in s'.table then
        && s'.table[c] == i
        && (step.Loop? && s.loop.Select? ==> !Overdue(cfg, s, z, step.act.now))
      else step.Loop? && s.loop.Select? && Overdue(cfg, s, z, step.act.now)
  {
    ReachableIsGood(cfg, s);
    var s' := Next(cfg, s, step).value;
    match step {
      case Receiver(i, a) => ReceiverFrame(s, i, a);
      case Resolver(a) => ResolverFrame(cfg, s, a);
      case Control(a) => UdpHistory.ControlFrame(cfg, s, a);
      case Loop(a) =>
        if s.loop.Select? {
          SelectFrame(cfg, s, a);
          assert Listed(s, i);
          Clock.DueIsOverdue(s.sessions[i].marked, s.sessions[i].lastActive, cfg.idleSeconds, s.loop.force, a.now);
        } else {
          LoopKeepsTable(cfg, s, a);
        }
    }
  }

  predicate Overdue(cfg: Config, s: State, z: Session, now: int) {
    Clock.Overdue(z.marked, z.lastActive, cfg.idleSeconds, s.loop.Select? && s.loop.force, now)
  }

  lemma LoopKeepsTable(cfg: Config, s: State, a: Act)
    requires !s.loop.Select? && LoopNext(cfg, s, a).Some?
    ensures forall c :: c in s.table ==>
              c in LoopNext(cfg, s, a).value.table && LoopNext(cfg, s, a).value.table[c] == s.table[c]
  {
    if Simple(s) {
      SimpleFrame(cfg, s, a);
    } else if s.loop.Start? {
      StartFrame(cfg, s, a);
    } else if s.loop.Touch? || s.loop.Send? {
      TouchOrSendFrame(cfg, s, a);
    } else if s.loop.Sweep? {
      SweepFrame(cfg, s, a);
    }
  }

  /** While the forwarder runs, a forced sweep is never under way: an unmarked session is safe as
      long as its last activity is at most the timeout ago. */
  lemma ActiveSessionIsKept(cfg: Config, s: State, step: Step, c: string, i: nat)
    requires Reachable(cfg, s) && Next(cfg, s, step).Some? && c in s.table && s.table[c] == i < |s.sessions|
    requires s.running && !s.sessions[i].marked
    requires cfg.idleSeconds > 0 && step.act.Chosen? ==>
              step.act.now - s.sessions[i].lastActive <= 1000 * cfg.idleSeconds
    ensures c in Next(cfg, s, step).value.table && Next(cfg, s, step).value.table[c] == i
  {
    ReachableIsGood(cfg, s);
    BindingLasts(cfg, s, step, c, i);
    if step.Loop? && s.loop.Select? { SelectFrame(cfg, s, step.act); }
  }

  lemma LoopCleanupTime(cfg: Config, s: State, a: Act)
    requires LoopNext(cfg, s, a).Some?
    ensures var s' := LoopNext(cfg, s, a).value;
      s'.lastCleanup == s.lastCleanup || (s'.lastCleanup == s'.clock && s.clock <= s'.clock)
  {
    if Simple(s) {
      SimpleFrame(cfg, s, a);
    } else if s.loop.Start? {
      StartFrame(cfg, s, a);
    } else if s.loop.Touch? || s.loop.Send? {
      TouchOrSendFrame(cfg, s, a);
    } else if s.loop.Sweep? {
      SweepFrame(cfg, s, a);
    } else if s.loop.Select? {
      SelectFrame(cfg, s, a);
    }
  }

  lemma CleanupTimeGrows(cfg: Config, s: State, step: Step)
    requires Inv(cfg, s) && Next(cfg, s, step).Some?
    ensures Next(cfg, s, step).value.lastCleanup >= s.lastCleanup
  {
    match step {
      case Receiver(i, a) => ReceiverFrame(s, i, a);
      case Resolver(a) => ResolverFrame(cfg, s, a);
      case Control(a) => UdpHistory.ControlFrame(cfg, s, a);
      case Loop(a) => LoopCleanupTime(cfg, s, a);
    }
  }

  lemma {:induction false} CleanupTimeGrowsOverRun(cfg: Config, s: State, run: seq<Step>)
    requires Inv(cfg, s) && After(cfg, s, run).Some?
    ensures After(cfg, s, run).value.lastCleanup >= s.lastCleanup
    decreases run
  {
    if run != [] {
      CleanupTimeGrows(cfg, s, run[0]);
      StepKeepsInv(cfg, s, run[0]);
      CleanupTimeGrowsOverRun(cfg, Next(cfg, s, run[0]).value, run[1..]);
    }
  }

  /** Whatever happens in between, restarts included, a periodic sweep begins at least one cleanup
      interval after any time noted for a sweep before. */
  lemma SweepsAreSpaced(cfg: Config, s: State, run: seq<Step>, a: Act)
    requires Reachable(cfg, s) && After(cfg, s, run).Some? && After(cfg, s, run).value.loop.Maybe?
    requires LoopNext(cfg, After(cfg, s, run).value, a).Some?
    ensures var t := After(cfg, s, run).value; var t' := LoopNext(cfg, t, a).value;
      && (t'.loop.Select? <==> a.now - t.lastCleanup >= 1000)
      && t'.lastCleanup == (if t'.loop.Select? then a.now else t.lastCleanup)
      && (t'.loop.Select? ==> a.now - s.lastCleanup >= 1000)
  {
    ReachableIsGood(cfg, s);
    CleanupTimeGrowsOverRun(cfg, s, run);
    RunKeepsInv(cfg, s, run);
    SweepDecision(cfg, After(cfg, s, run).value, a);
  }

  lemma SweepDecision(cfg: Config, t: State, a: Act)
    requires Inv(cfg, t) && t.loop.Maybe? && LoopNext(cfg, t, a).Some?
    ensures var t' := LoopNext(cfg, t, a).value;
      && (t'.loop.Select? <==> a.now - t.lastCleanup >= 1000)
      && t'.lastCleanup == (if t'.loop.Select? then a.now else t.lastCleanup)
  {
    Clock.NoWrap(a.now, t.lastCleanup);
  }

  /** The packet and byte counters are the count and the sum of the successful sends. */
  lemma CountersAreExact(cfg: Config, s: State, i: nat)
    requires Reachable(cfg, s) && i < |s.sessions|
    ensures Tallies(s.sessions[i].up, SentUp(s.forwards, s.sessions[i].sock))
    ensures Tallies(s.sessions[i].down, SentDown(s.replies, s.sessions[i].sock))
  {
    ReachableIsGood(cfg, s);
  }

  /** A session's target is the first endpoint for which a socket could be made, out of a list that
      was cached at some moment before, and it stays that whatever the resolver finds later. */
  lemma TargetIsPinned(cfg: Config, s: State, i: nat, run: seq<Step>)
    requires Reachable(cfg, s) && i < |s.sessions| && After(cfg, s, run).Some?
    ensures FirstMade(s.sessions[i].snapshot, s.sessions[i].made, s.sessions[i].target)
    ensures WasCached(cfg, s, s.sessions[i].snapshot)
    ensures i < |After(cfg, s, run).value.sessions|
    ensures After(cfg, s, run).value.sessions[i].target == s.sessions[i].target
    ensures After(cfg, s, run).value.sessions[i].client == s.sessions[i].client
  {
    ReachableIsGood(cfg, s);
    assert Pinned(s.sessions[i]);
    RunContinues(cfg, s, run);
    assert SameRecord(s.sessions[i], After(cfg, s, run).value.sessions[i]);
  }

  /** The cache is the last good resolution, holds allowed families only, and is never empty while
      the forwarder is up; so the loop's branch for an empty snapshot is dead, and so is the branch
      for a session that somebody else inserted first. */
  lemma CacheIsLastGood(cfg: Config, s: State)
    requires Reachable(cfg, s)
    ensures s.cache == LastGood(cfg.preference, s.resolutions)
    ensures forall e :: e in s.cache ==> Allowed(cfg.preference, e)
    ensures !s.control.Stopped? ==> s.cache != []
    ensures s.loop.Snapshot? || s.loop.Opening? || s.loop.Insert? ==> s.cache != [] && s.loop.client !in s.table
  {
    ReachableIsGood(cfg, s);
    LastGoodIsAllowed(cfg.preference, s.resolutions);
  }
}
