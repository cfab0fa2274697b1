/** What every step of the TCP forwarder keeps. */
module TcpSafety {
  import opened Sockets
  import opened TcpMachine

  predicate ClientOpen(z: Session) {
    z.phase.Fresh? || z.phase.Relaying?
  }

  predicate UpstreamOpen(z: Session) {
    ClientOpen(z) || z.phase.HalfClosed?
  }

  ghost predicate EndOk(k: Kernel, e: End, open: bool) {
    && e.fd >= 0 && e.x < k.next
    && (if open then Names(k, e.fd, e.x) else !IsOpen(k, e.x))
  }

  ghost predicate SessionOk(k: Kernel, z: Session) {
    && z.client.x < z.upstream.x
    && EndOk(k, z.client, ClientOpen(z)) && EndOk(k, z.upstream, UpstreamOpen(z))
    && (z.stopping && z.phase.Relaying? ==> z.shut)
  }

  /** The sockets of different sessions are different: they were made one after the other. */
  predicate InOrder(s: State) {
    forall i, j :: 0 <= i < j < |s.sessions| ==> s.sessions[i].upstream.x < s.sessions[j].client.x
  }

  predicate Serving(s: State) {
    s.control.Up? || s.control.ShutListen? || s.control.CloseListen? || s.control.ForgetListen? || s.control.JoinAccept?
  }

  predicate ListenerOpen(s: State) {
    s.control.Up? || s.control.ShutListen? || s.control.CloseListen?
  }

  ghost predicate ControlOk(s: State) {
    && (s.running <==> s.control.Up?)
    && (s.accept.Off? <==> !Serving(s))
    && (s.resolver.Off? <==> !Serving(s) && !s.control.JoinResolver?)
    && (ListenerOpen(s) ==> Names(s.k, s.listen, s.listenSock))
    && (s.control.ForgetListen? || s.control.JoinAccept? ==> !IsOpen(s.k, s.listenSock))
    && (!ListenerOpen(s) && !s.control.ForgetListen? ==> s.listen == INVALID)
    && (Serving(s) ==> s.listenSock < s.k.next)
    && (s.control.Candidate? ==> Names(s.k, s.control.h, s.control.x))
    && (s.control.Stopped? || s.control.Trying? || s.control.Candidate? ==> s.table == map[])
  }

  /** A socket the accept thread holds, newer than those of all sessions. */
  ghost predicate OwnEnd(s: State, e: End) {
    && e.fd >= 0 && Names(s.k, e.fd, e.x) && e.x != s.listenSock
    && forall n :: 0 <= n < |s.sessions| ==> s.sessions[n].upstream.x < e.x
  }

  predicate HasClient(a: Accept) {
    a.Choose? || a.Refresh? || a.Connect? || a.Trial? || a.Drop? || a.Insert?
  }

  /** Past the test of the running flag, on the way to the next accept. */
  predicate BoundForAccept(a: Accept) {
    a.Load? || (a.Reap? && !a.final) || (a.Reaping? && !a.final)
  }

  ghost predicate AcceptOk(s: State) {
    && (BoundForAccept(s.accept) && s.control.ForgetListen? ==> s.listen !in s.k.fds)
    && (s.accept.Have? && s.accept.h in s.k.fds ==> s.k.fds[s.accept.h] == s.listenSock)
    && (s.accept.Accepting? && s.accept.on.Some? ==> s.accept.on.value == s.listenSock)
    && (HasClient(s.accept) ==> OwnEnd(s, s.accept.c))
    && (s.accept.Trial? || s.accept.Insert? ==> OwnEnd(s, s.accept.u) && s.accept.c.x < s.accept.u.x)
    && (s.accept.Reaping? ==>
          && (forall a, b :: 0 <= a < b < |s.accept.list| ==> s.accept.list[a] != s.accept.list[b])
          && (forall n :: n in s.accept.list ==> n < |s.sessions|))
    && (s.accept.Start? ==> s.accept.n < |s.sessions| && s.accept.n + 1 in s.table)
  }

  /** The two maps have the same keys; the identifier of a session is its serial number, so an
      insertion never overwrites. */
  predicate TableOk(s: State) {
    && s.nextId == |s.sessions|
    && s.table.Keys == s.peers.Keys
    && (forall id :: id in s.table ==> s.table[id] < |s.sessions| && id == s.table[id] + 1)
    && (forall id :: id in s.table ==> s.peers[id] == s.sessions[s.table[id]].peer)
  }

  predicate InTable(s: State, n: nat) {
    n + 1 in s.table
  }

  predicate Reaped1(s: State, n: nat) {
    s.accept.Reaping? && n in s.accept.list
  }

  /** Where a session stands with the accept thread. */
  predicate PlaceOk(s: State, n: nat)
    requires n < |s.sessions|
  {
    var z := s.sessions[n];
    && (z.phase.Fresh? <==> s.accept.Start? && s.accept.n == n)
    && (InTable(s, n) || Reaped1(s, n) || z.phase.Joined?)
    && (Reaped1(s, n) ==> z.phase.Finished? && !InTable(s, n))
    && (InTable(s, n) && z.phase.Joined? ==> s.control.JoinSessions? || s.control.Clear?)
  }

  predicate Ending(s: State) {
    s.control.StopSessions? || s.control.JoinSessions? || s.control.Clear?
  }

  /** Where a session stands with Stop. */
  predicate StopOk(s: State, n: nat)
    requires n < |s.sessions|
  {
    var z := s.sessions[n];
    && (z.stopping && !Ending(s) ==> z.phase.Joined?)
    && (s.control.StopSessions? && InTable(s, n) ==> (n in s.control.todo <==> !z.stopping) && n in s.control.all)
    && ((s.control.JoinSessions? || s.control.Clear?) && InTable(s, n) ==> z.stopping)
    && (s.control.JoinSessions? && InTable(s, n) ==> (n in s.control.list <==> !z.phase.Joined?))
    && (s.control.Clear? && InTable(s, n) ==> z.phase.Joined?)
  }

  predicate ListOk(s: State, list: seq<nat>) {
    && (forall a, b :: 0 <= a < b < |list| ==> list[a] != list[b])
    && (forall n :: n in list ==> n < |s.sessions| && InTable(s, n))
  }

  predicate ListsOk(s: State) {
    && (s.control.StopSessions? ==> ListOk(s, s.control.todo) && ListOk(s, s.control.all))
    && (s.control.JoinSessions? ==> ListOk(s, s.control.list))
  }

  ghost predicate Held(s: State, h: int) {
    || (ListenerOpen(s) && h == s.listen)
    || (s.control.Candidate? && h == s.control.h)
    || (HasClient(s.accept) && h == s.accept.c.fd)
    || ((s.accept.Trial? || s.accept.Insert?) && h == s.accept.u.fd)
    || HeldBySession(s.sessions, h)
  }

  ghost predicate HeldBySession(sessions: seq<Session>, h: int) {
    exists n :: 0 <= n < |sessions| && ((sessions[n].client.fd == h && ClientOpen(sessions[n]))
                                       || (sessions[n].upstream.fd == h && UpstreamOpen(sessions[n])))
  }

  ghost predicate SessionsOk(s: State) {
    && InOrder(s)
    && (forall n :: 0 <= n < |s.sessions| ==> SessionOk(s.k, s.sessions[n]))
    && (forall n :: 0 <= n < |s.sessions| && Serving(s) ==>
          s.sessions[n].client.x != s.listenSock && s.sessions[n].upstream.x != s.listenSock)
  }

  ghost predicate PlacesOk(s: State) {
    && (forall n :: 0 <= n < |s.sessions| ==> PlaceOk(s, n))
    && (forall n :: 0 <= n < |s.sessions| ==> StopOk(s, n))
    && ListsOk(s)
  }

  ghost predicate Inv(s: State) {
    && Valid(s.k) && ControlOk(s) && AcceptOk(s) && TableOk(s) && SessionsOk(s) && PlacesOk(s)
    && forall h :: h in s.k.fds ==> Held(s, h)
  }

  lemma ListedIsInTable(s: State, n: nat)
    requires TableOk(s)
    ensures Listed(s, n) <==> InTable(s, n)
  {
    if InTable(s, n) { assert s.table[n + 1] == n; }
  }

  // Workers.

  lemma EndIsClosed(k: Kernel, e: End)
    requires Valid(k) && EndOk(k, e, true)
    ensures Valid(Close(k, e.fd)) && EndOk(Close(k, e.fd), e, false)
  {
    CloseKeepsValid(k, e.fd);
  }

  lemma OthersStay(k: Kernel, h: int, e: End, open: bool)
    requires Valid(k) && h in k.fds && k.fds[h] != e.x && EndOk(k, e, open)
    ensures EndOk(Close(k, h), e, open)
  {
    CloseKeepsValid(k, h);
  }

  lemma OpenKeepsEnd(k: Kernel, h: int, e: End, open: bool)
    requires Valid(k) && Free(k, h) && EndOk(k, e, open)
    ensures EndOk(Open(k, h), e, open)
  {
    OpenKeepsValid(k, h);
  }

  lemma OpenKeepsSessions(s: State, h: int)
    requires Valid(s.k) && Free(s.k, h) && SessionsOk(s)
    ensures forall n :: 0 <= n < |s.sessions| ==> SessionOk(Open(s.k, h), s.sessions[n])
  {
    forall n | 0 <= n < |s.sessions| ensures SessionOk(Open(s.k, h), s.sessions[n]) {
      OpenKeepsEnd(s.k, h, s.sessions[n].client, ClientOpen(s.sessions[n]));
      OpenKeepsEnd(s.k, h, s.sessions[n].upstream, UpstreamOpen(s.sessions[n]));
    }
  }

  lemma CloseKeepsSession(k: Kernel, h: int, z: Session)
    requires Valid(k) && h in k.fds && SessionOk(k, z) && k.fds[h] != z.client.x && k.fds[h] != z.upstream.x
    ensures SessionOk(Close(k, h), z)
  {
    OthersStay(k, h, z.client, ClientOpen(z));
    OthersStay(k, h, z.upstream, UpstreamOpen(z));
  }

  /** One session record is replaced by one with the same sockets; the number `h` may be closed. */
  ghost predicate Replaced(s: State, s': State, n: nat) {
    && n < |s.sessions| == |s'.sessions| && s'.sessions == s.sessions[n := s'.sessions[n]]
    && s'.sessions[n].client == s.sessions[n].client && s'.sessions[n].upstream == s.sessions[n].upstream
    && s'.sessions[n].peer == s.sessions[n].peer
    && s'.running == s.running && s'.listen == s.listen && s'.listenSock == s.listenSock
    && s'.resolver == s.resolver && s'.cache == s.cache && s'.resolutions == s.resolutions
    && s'.table == s.table && s'.peers == s.peers && s'.nextId == s.nextId
  }

  lemma WorkerSteps(s: State, n: nat)
    requires WorkerNext(s, n).Some?
    ensures var s' := WorkerNext(s, n).value;
      && Replaced(s, s', n) && s'.control == s.control && s'.accept == s.accept
      && s'.sessions[n].stopping == s.sessions[n].stopping && s'.sessions[n].shut == s.sessions[n].shut
      && (match s.sessions[n].phase
          case Relaying => s'.sessions[n].phase == HalfClosed && s'.k == Close(s.k, s.sessions[n].client.fd)
          case HalfClosed => s'.sessions[n].phase == Closed && s'.k == Close(s.k, s.sessions[n].upstream.fd)
          case Closed => s'.sessions[n].phase == Finished && s'.k == s.k
          case _ => false)
  {
  }

  lemma TwoSessions(s: State, i: nat, j: nat)
    requires SessionsOk(s) && i < |s.sessions| && j < |s.sessions| && i != j
    ensures s.sessions[i].client.x != s.sessions[j].client.x && s.sessions[i].client.x != s.sessions[j].upstream.x
    ensures s.sessions[i].upstream.x != s.sessions[j].client.x && s.sessions[i].upstream.x != s.sessions[j].upstream.x
  {
    assert SessionOk(s.k, s.sessions[i]) && SessionOk(s.k, s.sessions[j]);
  }

  /** A session after its worker has closed one more end. */
  lemma OwnEnds(k: Kernel, z: Session, z': Session, e: End)
    requires Valid(k) && SessionOk(k, z) && z'.client == z.client && z'.upstream == z.upstream
    requires if z.phase.Relaying? then e == z.client && z'.phase.HalfClosed?
             else z.phase.HalfClosed? && e == z.upstream && z'.phase.Closed?
    ensures SessionOk(Close(k, e.fd), z')
  {
    EndIsClosed(k, e);
    if z.phase.Relaying? {
      OthersStay(k, e.fd, z.upstream, true);
    } else {
      OthersStay(k, e.fd, z.client, false);
    }
  }

  /** The worker closes the end `e` of session `n`. */
  lemma WorkerCloses(s: State, s': State, n: nat, e: End)
    requires Valid(s.k) && SessionsOk(s) && Replaced(s, s', n) && s'.k == Close(s.k, e.fd) && s'.control == s.control
    requires if s.sessions[n].phase.Relaying? then e == s.sessions[n].client && s'.sessions[n].phase.HalfClosed?
             else s.sessions[n].phase.HalfClosed? && e == s.sessions[n].upstream && s'.sessions[n].phase.Closed?
    ensures Valid(s'.k) && SessionsOk(s')
  {
    var z := s.sessions[n];
    assert SessionOk(s.k, z);
    EndIsClosed(s.k, e);
    OwnEnds(s.k, z, s'.sessions[n], e);
    forall i | 0 <= i < |s.sessions| && i != n ensures SessionOk(s'.k, s'.sessions[i]) {
      TwoSessions(s, i, n);
      CloseKeepsSession(s.k, e.fd, s.sessions[i]);
    }
  }

  lemma WorkerKeepsSessions(s: State, n: nat)
    requires Inv(s) && WorkerNext(s, n).Some?
    ensures var s' := WorkerNext(s, n).value; Valid(s'.k) && SessionsOk(s')
  {
    var s' := WorkerNext(s, n).value;
    WorkerSteps(s, n);
    if s.sessions[n].phase.Relaying? {
      WorkerCloses(s, s', n, s.sessions[n].client);
    } else if s.sessions[n].phase.HalfClosed? {
      WorkerCloses(s, s', n, s.sessions[n].upstream);
    } else {
      assert SessionOk(s.k, s.sessions[n]);
    }
  }

  /** Nothing but the socket that number `h` meant is closed. */
  ghost predicate Loses(k: Kernel, k': Kernel, x: nat) {
    && k'.next == k.next
    && (forall h :: h in k'.fds ==> h in k.fds && k'.fds[h] == k.fds[h] && k.fds[h] != x)
    && (forall h :: h in k.fds && k.fds[h] != x ==> h in k'.fds)
  }

  lemma CloseLoses(k: Kernel, h: int)
    requires Valid(k) && h in k.fds
    ensures Valid(Close(k, h)) && Loses(k, Close(k, h), k.fds[h])
    ensures forall x :: IsOpen(Close(k, h), x) <==> IsOpen(k, x) && x != k.fds[h]
  {
    CloseKeepsValid(k, h);
  }

  lemma LossKeepsAccept(s: State, s': State, x: nat)
    requires AcceptOk(s) && Loses(s.k, s'.k, x) && s'.accept == s.accept && s'.control == s.control
    requires s'.listen == s.listen && s'.listenSock == s.listenSock && s'.table == s.table
    requires |s'.sessions| == |s.sessions|
    requires forall i :: 0 <= i < |s.sessions| ==> s'.sessions[i].upstream == s.sessions[i].upstream
    requires HasClient(s.accept) ==> s.accept.c.x != x
    requires s.accept.Trial? || s.accept.Insert? ==> s.accept.u.x != x
    ensures AcceptOk(s')
  {
  }

  lemma WorkerLoses(s: State, n: nat)
    requires Inv(s) && WorkerNext(s, n).Some?
    ensures var s' := WorkerNext(s, n).value; var z := s.sessions[n];
      && (s'.k == s.k || Loses(s.k, s'.k, z.client.x) || Loses(s.k, s'.k, z.upstream.x))
      && (forall x :: IsOpen(s'.k, x) ==> IsOpen(s.k, x))
      && (forall x :: IsOpen(s.k, x) && x != z.client.x && x != z.upstream.x ==> IsOpen(s'.k, x))
  {
    var z := s.sessions[n];
    assert SessionOk(s.k, z);
    WorkerSteps(s, n);
    if z.phase.Relaying? { CloseLoses(s.k, z.client.fd); }
    if z.phase.HalfClosed? { CloseLoses(s.k, z.upstream.fd); }
  }

  /** Workers run only while the forwarder is up or stopping. */
  lemma WorkersOnlyServe(s: State, n: nat)
    requires Inv(s) && n < |s.sessions| && !s.sessions[n].phase.Joined?
    ensures !s.control.Stopped? && !s.control.Trying? && !s.control.Candidate?
  {
    assert PlaceOk(s, n);
  }

  /** The step of a worker leaves the accept thread, Stop and Start where they are. */
  lemma WorkerKeepsAccept(s: State, n: nat)
    requires Inv(s) && WorkerNext(s, n).Some?
    ensures AcceptOk(WorkerNext(s, n).value) && TableOk(WorkerNext(s, n).value)
  {
    var s', z := WorkerNext(s, n).value, s.sessions[n];
    WorkerSteps(s, n);
    WorkerLoses(s, n);
    assert SessionOk(s.k, z);
    if Loses(s.k, s'.k, z.client.x) {
      LossKeepsAccept(s, s', z.client.x);
    } else if Loses(s.k, s'.k, z.upstream.x) {
      LossKeepsAccept(s, s', z.upstream.x);
    } else {
      SameKernelKeepsAccept(s, s');
    }
  }

  lemma SameKernelKeepsAccept(s: State, s': State)
    requires AcceptOk(s) && s'.k == s.k && s'.accept == s.accept && s'.control == s.control
    requires s'.listen == s.listen && s'.listenSock == s.listenSock && s'.table == s.table
    requires |s'.sessions| == |s.sessions|
    requires forall i :: 0 <= i < |s.sessions| ==> s'.sessions[i].upstream == s.sessions[i].upstream
    ensures AcceptOk(s')
  {
  }

  lemma WorkerKeepsControl(s: State, n: nat)
    requires Inv(s) && WorkerNext(s, n).Some?
    ensures ControlOk(WorkerNext(s, n).value)
  {
    WorkerSteps(s, n);
    WorkerLoses(s, n);
    WorkersOnlyServe(s, n);
    assert SessionOk(s.k, s.sessions[n]);
  }

  /** A worker under way moves on: nothing changes about where the sessions stand. */
  lemma ProgressKeepsPlace(s: State, s': State, n: nat, i: nat)
    requires Replaced(s, s', n) && s'.control == s.control && s'.accept == s.accept && i < |s.sessions|
    requires PlaceOk(s, i) && StopOk(s, i) && s'.sessions[n].stopping == s.sessions[n].stopping
    requires s.sessions[n].phase.Relaying? || s.sessions[n].phase.HalfClosed? || s.sessions[n].phase.Closed?
    requires s'.sessions[n].phase.HalfClosed? || s'.sessions[n].phase.Closed? || s'.sessions[n].phase.Finished?
    ensures PlaceOk(s', i) && StopOk(s', i)
  {
  }

  lemma WorkerKeepsPlaces(s: State, n: nat)
    requires PlacesOk(s) && WorkerNext(s, n).Some?
    ensures PlacesOk(WorkerNext(s, n).value)
  {
    var s' := WorkerNext(s, n).value;
    WorkerSteps(s, n);
    forall i | 0 <= i < |s.sessions| ensures PlaceOk(s', i) && StopOk(s', i) {
      ProgressKeepsPlace(s, s', n, i);
    }
  }

  lemma WorkerHolds(s: State, n: nat)
    requires Inv(s) && WorkerNext(s, n).Some?
    ensures var s' := WorkerNext(s, n).value; forall h :: h in s'.k.fds ==> Held(s', h)
  {
    var s' := WorkerNext(s, n).value;
    WorkerSteps(s, n);
    assert SessionOk(s.k, s.sessions[n]);
    forall h | h in s'.k.fds ensures Held(s', h) {
      assert h in s.k.fds && Held(s, h);
      if HeldBySession(s.sessions, h) { SessionStillHolds(s, n, h); }
    }
  }

  lemma SessionStillHolds(s: State, n: nat, h: int)
    requires WorkerNext(s, n).Some? && SessionOk(s.k, s.sessions[n])
    requires HeldBySession(s.sessions, h) && h in WorkerNext(s, n).value.k.fds
    ensures HeldBySession(WorkerNext(s, n).value.sessions, h)
  {
    var s' := WorkerNext(s, n).value;
    WorkerSteps(s, n);
    var i :| 0 <= i < |s.sessions| && ((s.sessions[i].client.fd == h && ClientOpen(s.sessions[i]))
                                       || (s.sessions[i].upstream.fd == h && UpstreamOpen(s.sessions[i])));
    assert (s'.sessions[i].client.fd == h && ClientOpen(s'.sessions[i]))
        || (s'.sessions[i].upstream.fd == h && UpstreamOpen(s'.sessions[i]));
  }

  lemma WorkerKeepsInv(s: State, n: nat)
    requires Inv(s) && WorkerNext(s, n).Some?
    ensures Inv(WorkerNext(s, n).value)
  {
    WorkerKeepsSessions(s, n);
    WorkerKeepsAccept(s, n);
    WorkerKeepsControl(s, n);
    WorkerKeepsPlaces(s, n);
    WorkerHolds(s, n);
  }

  // The accept thread.

  predicate Quiet(a: Accept) {
    !a.Start? && !a.Reaping?
  }

  ghost predicate OnlyAccept(s: State, s': State) {
    && s'.running == s.running && s'.listen == s.listen && s'.listenSock == s.listenSock
    && s'.control == s.control && s'.resolver == s.resolver
    && s'.sessions == s.sessions && s'.table == s.table && s'.peers == s.peers && s'.nextId == s.nextId
    && s'.accept != Accept.Off && s.accept != Accept.Off
  }

  predicate KeepsEnds(a: Accept, a': Accept) {
    && (HasClient(a) ==> HasClient(a') && a'.c == a.c)
    && (a.Trial? || a.Insert? ==> (a'.Trial? || a'.Insert?) && a'.u == a.u)
  }

  lemma AcceptMoves(s: State, s': State)
    requires Inv(s) && OnlyAccept(s, s') && s'.k == s.k && Quiet(s.accept) && Quiet(s'.accept)
    requires KeepsEnds(s.accept, s'.accept) && AcceptOk(s')
    ensures Inv(s')
  {
    assert ControlOk(s') && TableOk(s');
    SamePlaces(s, s');
    forall h | h in s'.k.fds ensures Held(s', h) { assert Held(s, h); }
  }

  lemma SamePlaces(s: State, s': State)
    requires PlacesOk(s) && s'.sessions == s.sessions && s'.table == s.table && s'.control == s.control
    requires (s'.accept == s.accept) || (Quiet(s.accept) && Quiet(s'.accept))
    ensures PlacesOk(s')
  {
    forall i | 0 <= i < |s.sessions| ensures PlaceOk(s', i) && StopOk(s', i) {
      assert PlaceOk(s, i) && StopOk(s, i);
    }
  }

  /** The steps of the accept thread that touch neither a socket nor the table. */
  predicate Simple(s: State, a: Act) {
    || s.accept.Top? || s.accept.Load? || s.accept.Have? || s.accept.Failed? || s.accept.Choose? || s.accept.Refresh?
    || (s.accept.Accepting? && !a.Accepted?)
    || (s.accept.Connect? && !a.Opened?)
    || (s.accept.Trial? && a.Go?)
  }

  lemma SimpleFrame(cfg: Config, s: State, a: Act)
    requires Simple(s, a) && AcceptNext(cfg, s, a).Some?
    ensures var s' := AcceptNext(cfg, s, a).value;
      && OnlyAccept(s, s') && s'.k == s.k && Quiet(s.accept) && Quiet(s'.accept) && KeepsEnds(s.accept, s'.accept)
  {
  }

  /** What the accept thread knows about the listening number after such a step. */
  lemma SimpleKnowsListener(cfg: Config, s: State, a: Act)
    requires Simple(s, a) && AcceptNext(cfg, s, a).Some? && AcceptOk(s) && ControlOk(s) && Valid(s.k)
    ensures var s' := AcceptNext(cfg, s, a).value;
      && (BoundForAccept(s'.accept) && s.control.ForgetListen? ==> s.listen !in s.k.fds)
      && (s'.accept.Have? && s'.accept.h in s.k.fds ==> s.k.fds[s'.accept.h] == s.listenSock)
      && (s'.accept.Accepting? && s'.accept.on.Some? ==> s'.accept.on.value == s.listenSock)
  {
  }

  /** The sockets it holds are those it held before. */
  lemma SimpleHoldsTheSame(cfg: Config, s: State, a: Act)
    requires Simple(s, a) && AcceptNext(cfg, s, a).Some?
    ensures var s' := AcceptNext(cfg, s, a).value;
      && (HasClient(s'.accept) ==> HasClient(s.accept) && s'.accept.c == s.accept.c)
      && (s'.accept.Trial? || s'.accept.Insert? ==> s.accept.Trial? && s'.accept.u == s.accept.u)
  {
  }

  lemma SimpleKeepsAccept(cfg: Config, s: State, a: Act)
    requires Simple(s, a) && AcceptNext(cfg, s, a).Some? && AcceptOk(s) && ControlOk(s) && Valid(s.k)
    ensures AcceptOk(AcceptNext(cfg, s, a).value)
  {
    SimpleFrame(cfg, s, a);
    SimpleKnowsListener(cfg, s, a);
    SimpleHoldsTheSame(cfg, s, a);
    HoldsKeepAccept(s, AcceptNext(cfg, s, a).value);
  }

  lemma HoldsKeepAccept(s: State, s': State)
    requires AcceptOk(s) && OnlyAccept(s, s') && s'.k == s.k && Quiet(s'.accept)
    requires BoundForAccept(s'.accept) && s.control.ForgetListen? ==> s.listen !in s.k.fds
    requires s'.accept.Have? && s'.accept.h in s.k.fds ==> s.k.fds[s'.accept.h] == s.listenSock
    requires s'.accept.Accepting? && s'.accept.on.Some? ==> s'.accept.on.value == s.listenSock
    requires HasClient(s'.accept) ==> HasClient(s.accept) && s'.accept.c == s.accept.c
    requires s'.accept.Trial? || s'.accept.Insert? ==> s.accept.Trial? && s'.accept.u == s.accept.u
    ensures AcceptOk(s')
  {
  }

  lemma SimpleKeepsInv(cfg: Config, s: State, a: Act)
    requires Inv(s) && Simple(s, a) && AcceptNext(cfg, s, a).Some?
    ensures Inv(AcceptNext(cfg, s, a).value)
  {
    SimpleFrame(cfg, s, a);
    SimpleKeepsAccept(cfg, s, a);
    AcceptMoves(s, AcceptNext(cfg, s, a).value);
  }

  /** A new socket, from accept or for a connection to the target. */
  lemma AcceptOpens(s: State, s': State, h: int)
    requires Inv(s) && OnlyAccept(s, s') && Free(s.k, h) && s'.k == Open(s.k, h)
    requires s.accept.Accepting? || s.accept.Connect?
    requires s.accept.Accepting? ==> s'.accept.Choose? && s'.accept.c == End(h, s.k.next)
    requires s.accept.Connect? ==> s'.accept.Trial? && s'.accept.c == s.accept.c && s'.accept.u == End(h, s.k.next)
    ensures Inv(s')
  {
    OpenKeepsValid(s.k, h);
    OpenKeepsSessions(s, h);
    OpenedIsOwn(s, s', End(h, s.k.next));
    SamePlaces(s, s');
    assert TableOk(s');
    AcceptOpensControl(s, s', h);
    forall g | g in s'.k.fds ensures Held(s', g) { assert g == h || Held(s, g); }
  }

  lemma OpenedIsOwn(s: State, s': State, e: End)
    requires Valid(s.k) && ControlOk(s) && SessionsOk(s) && OnlyAccept(s, s') && Free(s.k, e.fd)
    requires s'.k == Open(s.k, e.fd)
    requires e.x == s.k.next
    ensures OwnEnd(s', e)
    ensures forall c :: OwnEnd(s, c) ==> OwnEnd(s', c) && c.x < e.x
  {
    forall n | 0 <= n < |s.sessions| ensures s.sessions[n].upstream.x < e.x {
      assert SessionOk(s.k, s.sessions[n]);
    }
  }

  lemma AcceptOpensControl(s: State, s': State, h: int)
    requires Valid(s.k) && ControlOk(s) && OnlyAccept(s, s') && Free(s.k, h) && s'.k == Open(s.k, h)
    ensures ControlOk(s')
  {
    OpenKeepsValid(s.k, h);
  }

  /** The accept thread gives up a socket of its own. */
  lemma AcceptCloses(s: State, s': State, e: End)
    requires Inv(s) && OnlyAccept(s, s') && OwnEnd(s, e) && s'.k == Close(s.k, e.fd)
    requires Quiet(s.accept) && Quiet(s'.accept)
    requires (s.accept.Trial? && e == s.accept.u && s'.accept.Connect? && s'.accept.c == s.accept.c)
          || (s.accept.Drop? && e == s.accept.c && s'.accept.Top?)
    ensures Inv(s')
  {
    CloseLoses(s.k, e.fd);
    forall n | 0 <= n < |s.sessions| ensures SessionOk(s'.k, s.sessions[n]) {
      assert SessionOk(s.k, s.sessions[n]);
      CloseKeepsSession(s.k, e.fd, s.sessions[n]);
    }
    SamePlaces(s, s');
    assert TableOk(s');
    AcceptClosesControl(s, s', e);
    forall h | h in s'.k.fds ensures Held(s', h) { assert Held(s, h); }
  }

  lemma AcceptClosesControl(s: State, s': State, e: End)
    requires Valid(s.k) && ControlOk(s) && OnlyAccept(s, s') && OwnEnd(s, e) && s'.k == Close(s.k, e.fd)
    ensures ControlOk(s')
  {
    CloseLoses(s.k, e.fd);
  }

  lemma SocketFrame(cfg: Config, s: State, a: Act)
    requires !Simple(s, a) && !s.accept.Insert? && !s.accept.Start? && !s.accept.Reap? && !s.accept.Reaping?
    requires AcceptNext(cfg, s, a).Some?
    ensures var s' := AcceptNext(cfg, s, a).value;
      && OnlyAccept(s, s') && Quiet(s.accept) && Quiet(s'.accept)
      && (match s.accept
          case Accepting(_) =>
            Free(s.k, a.h) && s'.k == Open(s.k, a.h) && s'.accept.Choose? && s'.accept.c == End(a.h, s.k.next)
          case Connect(c, _, _, _) =>
            && Free(s.k, a.h) && s'.k == Open(s.k, a.h)
            && s'.accept.Trial? && s'.accept.c == c && s'.accept.u == End(a.h, s.k.next)
          case Trial(c, _, _, _, u) => s'.k == Close(s.k, u.fd) && s'.accept.Connect? && s'.accept.c == c
          case Drop(c) => s'.k == Close(s.k, c.fd) && s'.accept.Top?
          case _ => false)
  {
  }

  lemma InsertFrame(cfg: Config, s: State, a: Act)
    requires s.accept.Insert? && AcceptNext(cfg, s, a).Some?
    ensures AcceptNext(cfg, s, a).value == Inserted(s)
  {
  }

  function Inserted(s: State): State
    requires s.accept.Insert?
  {
    s.(nextId := s.nextId + 1,
       sessions := s.sessions + [Session(s.accept.c, s.accept.u, s.accept.peer, Fresh, false, false)],
       table := s.table[s.nextId + 1 := |s.sessions|], peers := s.peers[s.nextId + 1 := s.accept.peer],
       accept := Start(|s.sessions|))
  }

  lemma InsertKeepsPlaces(s: State)
    requires PlacesOk(s) && TableOk(s) && ControlOk(s) && s.accept.Insert?
    ensures PlacesOk(Inserted(s)) && TableOk(Inserted(s))
  {
    var s', n := Inserted(s), |s.sessions|;
    forall i | 0 <= i < n ensures PlaceOk(s', i) && StopOk(s', i) && s'.sessions[i] == s.sessions[i] {
      assert PlaceOk(s, i) && StopOk(s, i);
      assert InTable(s', i) <==> InTable(s, i);
    }
    assert InTable(s', n) && PlaceOk(s', n) && StopOk(s', n);
  }

  lemma InsertKeepsSessions(s: State)
    requires Valid(s.k) && SessionsOk(s) && AcceptOk(s) && ControlOk(s) && s.accept.Insert?
    ensures SessionsOk(Inserted(s))
  {
    var s', n := Inserted(s), |s.sessions|;
    assert forall i :: 0 <= i < n ==> s'.sessions[i] == s.sessions[i];
    assert SessionOk(s'.k, s'.sessions[n]);
  }

  lemma InsertHolds(s: State)
    requires s.accept.Insert? && forall h :: h in s.k.fds ==> Held(s, h)
    ensures forall h :: h in s.k.fds ==> Held(Inserted(s), h)
  {
    var s', n := Inserted(s), |s.sessions|;
    forall h | h in s.k.fds ensures Held(s', h) {
      assert Held(s, h);
      if h == s.accept.c.fd || h == s.accept.u.fd {
        assert (s'.sessions[n].client.fd == h && ClientOpen(s'.sessions[n]))
            || (s'.sessions[n].upstream.fd == h && UpstreamOpen(s'.sessions[n]));
      } else if HeldBySession(s.sessions, h) {
        var i :| 0 <= i < n && ((s.sessions[i].client.fd == h && ClientOpen(s.sessions[i]))
                             || (s.sessions[i].upstream.fd == h && UpstreamOpen(s.sessions[i])));
        assert s'.sessions[i] == s.sessions[i];
      }
    }
  }

  lemma InsertKeepsInv(s: State)
    requires Inv(s) && s.accept.Insert?
    ensures Inv(Inserted(s))
  {
    InsertKeepsPlaces(s);
    InsertKeepsSessions(s);
    InsertHolds(s);
    assert ControlOk(Inserted(s));
    assert AcceptOk(Inserted(s));
  }

  function Begun(s: State): State
    requires s.accept.Start? && s.accept.n < |s.sessions|
  {
    With(s, s.accept.n, s.sessions[s.accept.n].(phase := Relaying)).(accept := Accept.Top)
  }

  lemma StartFrame(cfg: Config, s: State, a: Act)
    requires s.accept.Start? && AcceptNext(cfg, s, a).Some?
    ensures s.accept.n < |s.sessions| && AcceptNext(cfg, s, a).value == Begun(s)
  {
  }

  lemma StartKeepsPlaces(s: State)
    requires PlacesOk(s) && s.accept.Start? && s.accept.n < |s.sessions| && InTable(s, s.accept.n)
    requires !Ending(s)
    ensures PlacesOk(Begun(s))
  {
    var s' := Begun(s);
    forall i | 0 <= i < |s.sessions| ensures PlaceOk(s', i) && StopOk(s', i) {
      assert PlaceOk(s, i) && StopOk(s, i);
    }
  }

  /** Replacing a phase by one with the same open sockets. */
  lemma SamePhaseSockets(s: State, s': State, n: nat)
    requires SessionsOk(s) && Replaced(s, s', n) && s'.k == s.k && (Serving(s') ==> Serving(s))
    requires ClientOpen(s'.sessions[n]) == ClientOpen(s.sessions[n])
    requires UpstreamOpen(s'.sessions[n]) == UpstreamOpen(s.sessions[n])
    requires s'.sessions[n].stopping && s'.sessions[n].phase.Relaying? ==> s'.sessions[n].shut
    ensures SessionsOk(s')
    ensures forall h :: HeldBySession(s.sessions, h) ==> HeldBySession(s'.sessions, h)
  {
    assert SessionOk(s.k, s.sessions[n]);
    forall h | HeldBySession(s.sessions, h) ensures HeldBySession(s'.sessions, h) {
      var i :| 0 <= i < |s.sessions| && ((s.sessions[i].client.fd == h && ClientOpen(s.sessions[i]))
                                         || (s.sessions[i].upstream.fd == h && UpstreamOpen(s.sessions[i])));
      assert (s'.sessions[i].client.fd == h && ClientOpen(s'.sessions[i]))
          || (s'.sessions[i].upstream.fd == h && UpstreamOpen(s'.sessions[i]));
    }
  }

  lemma StartKeepsRest(s: State)
    requires s.accept.Start? && s.accept.n < |s.sessions| && ControlOk(s) && TableOk(s)
    ensures ControlOk(Begun(s)) && TableOk(Begun(s)) && AcceptOk(Begun(s))
  {
  }

  lemma StartHolds(s: State)
    requires s.accept.Start? && s.accept.n < |s.sessions| && forall h :: h in s.k.fds ==> Held(s, h)
    requires forall h :: HeldBySession(s.sessions, h) ==> HeldBySession(Begun(s).sessions, h)
    ensures forall h :: h in s.k.fds ==> Held(Begun(s), h)
  {
    forall h | h in s.k.fds ensures Held(Begun(s), h) { assert Held(s, h); }
  }

  lemma StartKeepsInv(s: State)
    requires Inv(s) && s.accept.Start? && s.accept.n < |s.sessions|
    ensures Inv(Begun(s))
  {
    assert PlaceOk(s, s.accept.n) && StopOk(s, s.accept.n);
    SamePhaseSockets(s, Begun(s), s.accept.n);
    StartKeepsPlaces(s);
    StartKeepsRest(s);
    StartHolds(s);
  }

  // Reaping.

  lemma ReapKeepsTable(s: State, order: seq<nat>)
    requires TableOk(s) && IsSelection(s, true, order)
    ensures TableOk(Reaped(s, order))
    ensures forall n: nat :: InTable(Reaped(s, order), n) <==> InTable(s, n) && n !in order
  {
    forall n: nat ensures InTable(Reaped(s, order), n) <==> InTable(s, n) && n !in order {
      if InTable(s, n) { assert s.table[n + 1] == n; }
    }
  }

  lemma ReapKeepsInv(s: State, order: seq<nat>)
    requires Inv(s) && s.accept.Reap? && IsSelection(s, true, order)
    ensures Inv(Reaped(s, order).(accept := Reaping(order, s.accept.final)))
  {
    var s' := Reaped(s, order).(accept := Reaping(order, s.accept.final));
    ReapKeepsTable(s, order);
    ReapKeepsPlaces(s, order);
    assert ControlOk(s') && AcceptOk(s');
    forall h | h in s'.k.fds ensures Held(s', h) { assert Held(s, h); }
  }

  lemma ReapKeepsPlaces(s: State, order: seq<nat>)
    requires PlacesOk(s) && TableOk(s) && s.accept.Reap? && IsSelection(s, true, order) && !Ending(s)
    requires forall n: nat :: InTable(Reaped(s, order), n) <==> InTable(s, n) && n !in order
    ensures PlacesOk(Reaped(s, order).(accept := Reaping(order, s.accept.final)))
  {
    var s' := Reaped(s, order).(accept := Reaping(order, s.accept.final));
    forall i | 0 <= i < |s.sessions| ensures PlaceOk(s', i) && StopOk(s', i) {
      assert PlaceOk(s, i) && StopOk(s, i);
      assert InTable(s', i) <==> InTable(s, i) && i !in order;
      ListedIsInTable(s, i);
    }
  }

  function ReapJoined(s: State): State
    requires s.accept.Reaping? && s.accept.list != [] && s.accept.list[0] < |s.sessions|
  {
    With(s, s.accept.list[0], s.sessions[s.accept.list[0]].(phase := Joined))
      .(accept := Reaping(s.accept.list[1..], s.accept.final))
  }

  lemma ReapFrame(s: State, a: Act)
    requires (s.accept.Reap? || s.accept.Reaping?) && ReapNext(s, a).Some?
    ensures s.accept.Reap? ==>
      && IsSelection(s, true, a.order)
      && ReapNext(s, a).value == Reaped(s, a.order).(accept := Reaping(a.order, s.accept.final))
    ensures s.accept.Reaping? && s.accept.list == [] ==>
      ReapNext(s, a).value == s.(accept := if s.accept.final then Accept.Exited else Load)
    ensures (s.accept.Reaping? && s.accept.list != [] && s.accept.list[0] < |s.sessions|
             && s.sessions[s.accept.list[0]].phase.Finished?) ==> ReapNext(s, a).value == ReapJoined(s)
  {
  }

  lemma JoinKeepsPlaces(s: State)
    requires PlacesOk(s) && s.accept.Reaping? && s.accept.list != [] && s.accept.list[0] < |s.sessions| && !Ending(s)
    requires forall a, b :: 0 <= a < b < |s.accept.list| ==> s.accept.list[a] != s.accept.list[b]
    ensures PlacesOk(ReapJoined(s))
  {
    var s', list := ReapJoined(s), s.accept.list;
    forall i | 0 <= i < |s.sessions| ensures PlaceOk(s', i) && StopOk(s', i) {
      assert PlaceOk(s, i) && StopOk(s, i);
      assert PlaceOk(s, list[0]) && list[0] in list;
      assert list == [list[0]] + list[1..];
    }
  }

  lemma JoinKeepsAccept(s: State)
    requires AcceptOk(s) && s.accept.Reaping? && s.accept.list != [] && s.accept.list[0] < |s.sessions|
    ensures AcceptOk(ReapJoined(s))
  {
    assert forall n :: n in s.accept.list[1..] ==> n in s.accept.list;
  }

  lemma ReapJoinKeepsInv(s: State)
    requires Inv(s) && s.accept.Reaping? && s.accept.list != []
    ensures s.accept.list[0] < |s.sessions| && s.sessions[s.accept.list[0]].phase.Finished? && Inv(ReapJoined(s))
  {
    var n := s.accept.list[0];
    assert n in s.accept.list;
    assert PlaceOk(s, n) && StopOk(s, n);
    var s' := ReapJoined(s);
    SamePhaseSockets(s, s', n);
    JoinKeepsPlaces(s);
    JoinKeepsAccept(s);
    JoinKeepsRest(s);
    JoinHolds(s);
  }

  lemma JoinHolds(s: State)
    requires (forall h :: h in s.k.fds ==> Held(s, h)) && SessionsOk(s) && s.accept.Reaping? && s.accept.list != []
    requires s.accept.list[0] < |s.sessions| && s.sessions[s.accept.list[0]].phase.Finished?
    ensures forall h :: h in s.k.fds ==> Held(ReapJoined(s), h)
  {
    SamePhaseSockets(s, ReapJoined(s), s.accept.list[0]);
    forall h | h in s.k.fds ensures Held(ReapJoined(s), h) { assert Held(s, h); }
  }

  lemma JoinKeepsRest(s: State)
    requires ControlOk(s) && TableOk(s) && s.accept.Reaping? && s.accept.list != [] && s.accept.list[0] < |s.sessions|
    ensures ControlOk(ReapJoined(s)) && TableOk(ReapJoined(s))
  {
  }

  lemma ReapEndsKeepsInv(s: State)
    requires Inv(s) && s.accept.Reaping? && s.accept.list == []
    ensures Inv(s.(accept := if s.accept.final then Accept.Exited else Load))
  {
    var s' := s.(accept := if s.accept.final then Accept.Exited else Load);
    forall i | 0 <= i < |s.sessions| ensures PlaceOk(s', i) && StopOk(s', i) {
      assert PlaceOk(s, i) && StopOk(s, i);
    }
    assert ControlOk(s') && AcceptOk(s') && TableOk(s');
    forall h | h in s'.k.fds ensures Held(s', h) { assert Held(s, h); }
  }

  lemma AcceptKeepsInv(cfg: Config, s: State, a: Act)
    requires Inv(s) && Next(cfg, s, Step.Accept(a)).Some?
    ensures Inv(Next(cfg, s, Step.Accept(a)).value)
  {
    if s.accept.Reap? {
      ReapFrame(s, a);
      ReapKeepsInv(s, a.order);
    } else if s.accept.Reaping? {
      ReapFrame(s, a);
      if s.accept.list == [] { ReapEndsKeepsInv(s); } else { ReapJoinKeepsInv(s); }
    } else if s.accept.Insert? {
      InsertFrame(cfg, s, a);
      InsertKeepsInv(s);
    } else if s.accept.Start? {
      StartFrame(cfg, s, a);
      StartKeepsInv(s);
    } else if Simple(s, a) {
      SimpleKeepsInv(cfg, s, a);
    } else {
      SocketFrame(cfg, s, a);
      var s' := AcceptNext(cfg, s, a).value;
      match s.accept {
        case Accepting(_) => AcceptOpens(s, s', a.h);
        case Connect(_, _, _, _) => AcceptOpens(s, s', a.h);
        case Trial(_, _, _, _, u) => AcceptCloses(s, s', u);
        case Drop(c) => AcceptCloses(s, s', c);
        case _ =>
      }
    }
  }

  // The resolver, and the thread that calls Start and Stop.

  lemma ResolverFrame(cfg: Config, s: State, a: Act)
    requires ResolverNext(cfg, s, a).Some?
    ensures var s' := ResolverNext(cfg, s, a).value;
      && s' == s.(resolver := s'.resolver, cache := s'.cache, resolutions := s'.resolutions)
      && !s.resolver.Off? && !s'.resolver.Off?
  {
  }

  lemma ResolverKeepsInv(cfg: Config, s: State, a: Act)
    requires Inv(s) && ResolverNext(cfg, s, a).Some?
    ensures Inv(ResolverNext(cfg, s, a).value)
  {
    var s' := ResolverNext(cfg, s, a).value;
    ResolverFrame(cfg, s, a);
    SamePlaces(s, s');
    ResolverKeepsRest(cfg, s, a);
    forall h | h in s'.k.fds ensures Held(s', h) { assert Held(s, h); }
  }

  lemma ResolverKeepsRest(cfg: Config, s: State, a: Act)
    requires ControlOk(s) && AcceptOk(s) && TableOk(s) && ResolverNext(cfg, s, a).Some?
    ensures var s' := ResolverNext(cfg, s, a).value; ControlOk(s') && AcceptOk(s') && TableOk(s')
  {
    ResolverFrame(cfg, s, a);
  }

  lemma AllJoined(s: State)
    requires PlacesOk(s) && s.accept.Off? && s.table == map[]
    ensures forall n :: 0 <= n < |s.sessions| ==> s.sessions[n].phase.Joined?
  {
    forall n | 0 <= n < |s.sessions| ensures s.sessions[n].phase.Joined? { assert PlaceOk(s, n); }
  }

  lemma ControlOpens(s: State, h: int, left: nat)
    requires Inv(s) && s.control.Trying? && Free(s.k, h)
    ensures Inv(s.(k := Open(s.k, h), control := Candidate(h, s.k.next, left)))
  {
    var s' := s.(k := Open(s.k, h), control := Candidate(h, s.k.next, left));
    OpenKeepsValid(s.k, h);
    OpenKeepsSessions(s, h);
    ControlKeepsPlaces(s, s');
    assert ControlOk(s') && AcceptOk(s') && TableOk(s');
    forall g | g in s'.k.fds ensures Held(s', g) { assert g == h || Held(s, g); }
  }

  /** Moves of Start and Stop before the sessions are collected. */
  lemma ControlKeepsPlaces(s: State, s': State)
    requires PlacesOk(s) && s'.sessions == s.sessions && s'.table == s.table && !Ending(s) && !Ending(s')
    requires s'.accept == s.accept || (Quiet(s.accept) && Quiet(s'.accept))
    ensures PlacesOk(s')
  {
    forall i | 0 <= i < |s.sessions| ensures PlaceOk(s', i) && StopOk(s', i) {
      assert PlaceOk(s, i) && StopOk(s, i);
    }
  }

  lemma ControlRejects(s: State)
    requires Inv(s) && s.control.Candidate?
    ensures Inv(s.(k := Close(s.k, s.control.h), control := Trying(s.control.left)))
  {
    var s' := s.(k := Close(s.k, s.control.h), control := Trying(s.control.left));
    CloseKeepsValid(s.k, s.control.h);
    AllJoined(s);
    forall n | 0 <= n < |s.sessions| ensures SessionOk(s'.k, s.sessions[n]) {
      assert SessionOk(s.k, s.sessions[n]);
    }
    ControlKeepsPlaces(s, s');
    assert ControlOk(s') && AcceptOk(s') && TableOk(s');
    forall g | g in s'.k.fds ensures Held(s', g) { assert Held(s, g); }
  }

  lemma ControlAccepts(s: State)
    requires Inv(s) && s.control.Candidate?
    ensures Inv(s.(listen := s.control.h, listenSock := s.control.x, running := true, accept := Accept.Top,
                   resolver := Refresher.Resolver.Top, control := Up))
  {
    var s' := s.(listen := s.control.h, listenSock := s.control.x, running := true, accept := Accept.Top,
                 resolver := Refresher.Resolver.Top, control := Up);
    AllJoined(s);
    forall n | 0 <= n < |s.sessions|
      ensures s.sessions[n].client.x != s'.listenSock && s.sessions[n].upstream.x != s'.listenSock
    {
      assert SessionOk(s.k, s.sessions[n]);
      assert IsOpen(s.k, s.control.x);
    }
    ControlKeepsPlaces(s, s');
    assert ControlOk(s') && AcceptOk(s') && TableOk(s');
    forall g | g in s'.k.fds ensures Held(s', g) { assert Held(s, g); }
  }

  lemma ControlClosesListener(s: State)
    requires Inv(s) && s.control.CloseListen?
    ensures Inv(s.(k := Close(s.k, s.listen), control := ForgetListen))
  {
    var s' := s.(k := Close(s.k, s.listen), control := ForgetListen);
    CloseLoses(s.k, s.listen);
    forall n | 0 <= n < |s.sessions| ensures SessionOk(s'.k, s.sessions[n]) {
      assert SessionOk(s.k, s.sessions[n]);
      CloseKeepsSession(s.k, s.listen, s.sessions[n]);
    }
    ControlKeepsPlaces(s, s');
    ClosedListenerKeepsRest(s);
    forall g | g in s'.k.fds ensures Held(s', g) { assert Held(s, g); }
  }

  lemma ClosedListenerKeepsRest(s: State)
    requires Valid(s.k) && ControlOk(s) && AcceptOk(s) && TableOk(s) && s.control.CloseListen?
    ensures var s' := s.(k := Close(s.k, s.listen), control := ForgetListen);
      AcceptOk(s') && ControlOk(s') && TableOk(s')
  {
    CloseLoses(s.k, s.listen);
  }

  lemma ListenFrame(cfg: Config, s: State, a: Act)
    requires ListenNext(cfg, s, a).Some? && !s.control.Candidate? && !s.control.CloseListen?
    requires s.control.Trying? ==> !a.Opened?
    requires ControlOk(s) && AcceptOk(s)
    ensures var s' := ListenNext(cfg, s, a).value;
      && s'.k == s.k && s'.sessions == s.sessions && s'.table == s.table && s'.peers == s.peers && s'.nextId == s.nextId
      && s'.accept == s.accept && ListenerOpen(s') == ListenerOpen(s) && !s'.control.Candidate?
      && (ListenerOpen(s) ==> s'.listen == s.listen) && s'.listenSock == s.listenSock && Serving(s') == Serving(s)
      && !Ending(s) && !Ending(s')
      && ControlOk(s') && AcceptOk(s')
  {
  }

  lemma ListenKeepsInv(cfg: Config, s: State, a: Act)
    requires Inv(s) && ListenNext(cfg, s, a).Some?
    ensures Inv(ListenNext(cfg, s, a).value)
  {
    var s' := ListenNext(cfg, s, a).value;
    if s.control.Trying? && a.Opened? {
      ControlOpens(s, a.h, s.control.left - 1);
    } else if s.control.Candidate? {
      if a.Nothing? { ControlRejects(s); } else { ControlAccepts(s); }
    } else if s.control.CloseListen? {
      ControlClosesListener(s);
    } else {
      ListenFrame(cfg, s, a);
      ControlMoves(s, s');
    }
  }

  lemma ControlMoves(s: State, s': State)
    requires Inv(s) && s'.k == s.k && s'.sessions == s.sessions && s'.table == s.table && s'.peers == s.peers
    requires s'.nextId == s.nextId
    requires s'.accept == s.accept || (s.accept.Exited? && s'.accept.Off?)
    requires ListenerOpen(s') == ListenerOpen(s) && !s'.control.Candidate? && !s.control.Candidate?
    requires (ListenerOpen(s) ==> s'.listen == s.listen) && s'.listenSock == s.listenSock
    requires (Serving(s') ==> Serving(s))
    requires !Ending(s) && !Ending(s') && ControlOk(s') && AcceptOk(s')
    ensures Inv(s')
  {
    ControlKeepsPlaces(s, s');
    assert TableOk(s');
    forall g | g in s'.k.fds ensures Held(s', g) { assert Held(s, g); }
  }

  /** Stop's joins of the two loop threads. */
  lemma JoinAcceptKeepsInv(s: State)
    requires Inv(s) && s.control.JoinAccept? && s.accept.Exited?
    ensures Inv(s.(accept := Accept.Off, control := JoinResolver))
  {
    ControlMoves(s, s.(accept := Accept.Off, control := JoinResolver));
  }

  lemma JoinResolverKeepsInv(s: State)
    requires Inv(s) && s.control.JoinResolver? && s.resolver.Exited?
    ensures Inv(s.(resolver := Refresher.Resolver.Off, control := Collect))
  {
    ControlMoves(s, s.(resolver := Refresher.Resolver.Off, control := Collect));
  }

  /** Moves of Stop among the sessions: only the places have to be looked at. */
  lemma EndingMoves(s: State, s': State)
    requires Inv(s) && (s.control.Collect? || Ending(s)) && (Ending(s') || (s'.control.Stopped? && s'.table == map[]))
    requires s'.k == s.k && s'.accept == s.accept && s'.resolver == s.resolver && s'.running == s.running
    requires s'.listen == s.listen && s'.listenSock == s.listenSock
    requires SessionsOk(s') && TableOk(s') && PlacesOk(s')
    requires forall h :: HeldBySession(s.sessions, h) ==> HeldBySession(s'.sessions, h)
    ensures Inv(s')
  {
    assert ControlOk(s') && AcceptOk(s');
    forall g | g in s'.k.fds ensures Held(s', g) { assert Held(s, g); }
  }

  lemma CollectKeepsInv(s: State, order: seq<nat>)
    requires Inv(s) && s.control.Collect? && IsSelection(s, false, order)
    ensures Inv(s.(control := StopSessions(order, order)))
  {
    var s' := s.(control := StopSessions(order, order));
    forall i | 0 <= i < |s.sessions| ensures PlaceOk(s', i) && StopOk(s', i) && (i in order <==> InTable(s, i)) {
      assert PlaceOk(s, i) && StopOk(s, i);
      CollectKeepsPlace(s, order, i);
    }
    EndingMoves(s, s');
  }

  lemma CollectKeepsPlace(s: State, order: seq<nat>, i: nat)
    requires i < |s.sessions| && PlaceOk(s, i) && StopOk(s, i) && TableOk(s) && s.accept.Off?
    requires s.control.Collect? && IsSelection(s, false, order)
    ensures var s' := s.(control := StopSessions(order, order));
      PlaceOk(s', i) && StopOk(s', i) && (i in order <==> InTable(s, i))
  {
    ListedIsInTable(s, i);
  }

  function OneStopped(s: State): State
    requires s.control.StopSessions? && s.control.todo != [] && s.control.todo[0] < |s.sessions|
  {
    With(s, s.control.todo[0], AskedToStop(s.sessions[s.control.todo[0]]))
      .(control := StopSessions(s.control.todo[1..], s.control.all))
  }

  lemma TailOf(list: seq<nat>, n: nat)
    requires list != [] && forall a, b :: 0 <= a < b < |list| ==> list[a] != list[b]
    ensures n in list <==> n == list[0] || n in list[1..]
    ensures list[0] !in list[1..]
  {
    assert list == [list[0]] + list[1..];
  }

  lemma StopOneKeepsPlaces(s: State)
    requires PlacesOk(s) && TableOk(s) && s.accept.Off?
    requires s.control.StopSessions? && s.control.todo != [] && s.control.todo[0] < |s.sessions|
    ensures PlacesOk(OneStopped(s))
  {
    var s', todo := OneStopped(s), s.control.todo;
    forall i | 0 <= i < |s.sessions| ensures PlaceOk(s', i) && StopOk(s', i) {
      assert PlaceOk(s, i) && StopOk(s, i);
      TailOf(todo, i);
    }
    assert forall n :: n in todo[1..] ==> n in todo;
  }

  lemma StopOneKeepsInv(s: State)
    requires Inv(s) && s.control.StopSessions? && s.control.todo != [] && s.control.todo[0] < |s.sessions|
    ensures Inv(OneStopped(s))
  {
    var s', n := OneStopped(s), s.control.todo[0];
    assert PlaceOk(s, n) && SessionOk(s.k, s.sessions[n]);
    SamePhaseSockets(s, s', n);
    StopOneKeepsPlaces(s);
    EndingMoves(s, s');
  }

  lemma StopsEndKeepsInv(s: State)
    requires Inv(s) && s.control.StopSessions? && s.control.todo == []
    ensures Inv(s.(control := JoinSessions(s.control.all)))
  {
    var s' := s.(control := JoinSessions(s.control.all));
    forall i | 0 <= i < |s.sessions| ensures PlaceOk(s', i) && StopOk(s', i) {
      assert PlaceOk(s, i) && StopOk(s, i);
    }
    EndingMoves(s, s');
  }

  function OneJoined(s: State): State
    requires s.control.JoinSessions? && s.control.list != [] && s.control.list[0] < |s.sessions|
  {
    With(s, s.control.list[0], s.sessions[s.control.list[0]].(phase := Joined))
      .(control := JoinSessions(s.control.list[1..]))
  }

  lemma JoinOneKeepsPlaces(s: State)
    requires PlacesOk(s) && s.accept.Off?
    requires s.control.JoinSessions? && s.control.list != [] && s.control.list[0] < |s.sessions|
    requires s.sessions[s.control.list[0]].phase.Finished?
    ensures PlacesOk(OneJoined(s))
  {
    var s', list := OneJoined(s), s.control.list;
    forall i | 0 <= i < |s.sessions| ensures PlaceOk(s', i) && StopOk(s', i) {
      assert PlaceOk(s, i) && StopOk(s, i);
      TailOf(list, i);
    }
    assert forall m :: m in list[1..] ==> m in list;
  }

  lemma JoinOneKeepsInv(s: State)
    requires Inv(s) && s.control.JoinSessions? && s.control.list != [] && s.control.list[0] < |s.sessions|
    requires s.sessions[s.control.list[0]].phase.Finished?
    ensures Inv(OneJoined(s))
  {
    SamePhaseSockets(s, OneJoined(s), s.control.list[0]);
    JoinOneKeepsPlaces(s);
    EndingMoves(s, OneJoined(s));
  }

  lemma JoinsEndKeepsInv(s: State)
    requires Inv(s) && s.control.JoinSessions? && s.control.list == []
    ensures Inv(s.(control := Clear))
  {
    var s' := s.(control := Clear);
    forall i | 0 <= i < |s.sessions| ensures PlaceOk(s', i) && StopOk(s', i) {
      assert PlaceOk(s, i) && StopOk(s, i);
    }
    EndingMoves(s, s');
  }

  lemma ClearKeepsInv(s: State)
    requires Inv(s) && s.control.Clear?
    ensures Inv(s.(table := map[], peers := map[], control := Stopped))
  {
    var s' := s.(table := map[], peers := map[], control := Stopped);
    forall i | 0 <= i < |s.sessions| ensures PlaceOk(s', i) && StopOk(s', i) {
      assert PlaceOk(s, i) && StopOk(s, i);
    }
    EndingMoves(s, s');
  }

  lemma StopFrame(s: State, a: Act)
    requires StopNext(s, a).Some?
    ensures match s.control
      case JoinAccept => s.accept.Exited? && StopNext(s, a).value == s.(accept := Accept.Off, control := JoinResolver)
      case JoinResolver =>
        s.resolver.Exited? && StopNext(s, a).value == s.(resolver := Refresher.Resolver.Off, control := Collect)
      case Collect =>
        IsSelection(s, false, a.order) && StopNext(s, a).value == s.(control := StopSessions(a.order, a.order))
      case StopSessions(todo, all) =>
        if todo == [] then StopNext(s, a).value == s.(control := JoinSessions(all))
        else todo[0] < |s.sessions| && StopNext(s, a).value == OneStopped(s)
      case JoinSessions(list) =>
        if list == [] then StopNext(s, a).value == s.(control := Clear)
        else list[0] < |s.sessions| && (!s.sessions[list[0]].phase.Fresh? ==>
               s.sessions[list[0]].phase.Finished? && StopNext(s, a).value == OneJoined(s))
      case Clear => StopNext(s, a).value == s.(table := map[], peers := map[], control := Stopped)
      case _ => false
  {
  }

  lemma StopKeepsInv(s: State, a: Act)
    requires Inv(s) && StopNext(s, a).Some?
    ensures Inv(StopNext(s, a).value)
  {
    StopFrame(s, a);
    match s.control {
      case JoinAccept => JoinAcceptKeepsInv(s);
      case JoinResolver => JoinResolverKeepsInv(s);
      case Collect => CollectKeepsInv(s, a.order);
      case StopSessions(todo, _) => if todo == [] { StopsEndKeepsInv(s); } else { StopOneKeepsInv(s); }
      case JoinSessions(list) =>
        if list == [] {
          JoinsEndKeepsInv(s);
        } else {
          assert PlaceOk(s, list[0]);
          JoinOneKeepsInv(s);
        }
      case Clear => ClearKeepsInv(s);
      case _ =>
    }
  }

  lemma StepKeepsInv(cfg: Config, s: State, step: Step)
    requires Inv(s) && Next(cfg, s, step).Some?
    ensures Inv(Next(cfg, s, step).value)
  {
    match step {
      case Control(a) => if Listening(s.control) { ListenKeepsInv(cfg, s, a); } else { StopKeepsInv(s, a); }
      case Accept(a) => AcceptKeepsInv(cfg, s, a);
      case Resolver(a) => ResolverKeepsInv(cfg, s, a);
      case Worker(n) => WorkerKeepsInv(s, n);
    }
  }

  lemma {:induction false} RunKeepsInv(cfg: Config, s: State, run: seq<Step>)
    requires Inv(s) && After(cfg, s, run).Some?
    ensures Inv(After(cfg, s, run).value)
    decreases run
  {
    if run != [] {
      StepKeepsInv(cfg, s, run[0]);
      RunKeepsInv(cfg, Next(cfg, s, run[0]).value, run[1..]);
    }
  }

  lemma ReachableIsInv(cfg: Config, s: State)
    requires Reachable(cfg, s)
    ensures Inv(s)
  {
    var run :| After(cfg, INITIAL, run) == Some(s);
    RunKeepsInv(cfg, INITIAL, run);
  }

  lemma {:induction false} MachineSplits(cfg: Config, s: State, run: seq<Step>, step: Step)
    ensures After(cfg, s, run + [step]) ==
            match After(cfg, s, run) case None => None case Some(t) => Next(cfg, t, step)
    decreases run
  {
    if run == [] {
      assert (run + [step])[1..] == [];
    } else {
      assert (run + [step])[1..] == run[1..] + [step];
      if Next(cfg, s, run[0]).Some? { MachineSplits(cfg, Next(cfg, s, run[0]).value, run[1..], step); }
    }
  }

  lemma MachineGoesOn(cfg: Config, s: State, step: Step)
    requires Reachable(cfg, s) && Next(cfg, s, step).Some?
    ensures Reachable(cfg, Next(cfg, s, step).value)
  {
    var run :| After(cfg, INITIAL, run) == Some(s);
    MachineSplits(cfg, INITIAL, run, step);
  }
}
