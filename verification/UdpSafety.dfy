/** What every step of the UDP forwarder keeps. */
module UdpSafety {
  import opened Sockets
  import opened UdpMachine
  import Ranks

  /** Where a session stands: in the table (`Starting` until its receiver is started), picked by a
      sweep and still open (`Waiting`), closed (`ClosedNow`), closed with the handle forgotten
      (`Forgotten`), or done with. */
  datatype Place = Starting | Tabled | Waiting | ClosedNow | Forgotten | Gone

  function PlaceOf(s: State, i: nat): Place
    requires i < |s.sessions|
  {
    if Listed(s, i) then (if s.loop.Start? && s.loop.i == i then Starting else Tabled)
    else if s.loop.Sweep? && i in s.loop.list then
      if i != s.loop.list[0] || s.loop.stage.Shutdown? || s.loop.stage.Close? then Waiting
      else if s.loop.stage.Invalidate? then ClosedNow
      else Forgotten
    else Gone
  }

  predicate HoldsSocket(p: Place) {
    p.Starting? || p.Tabled? || p.Waiting?
  }

  ghost predicate SessionOk(z: Session, p: Place, k: Kernel) {
    && z.fd >= 0 && z.sock < k.next
    && (HoldsSocket(p) ==> z.handle == z.fd && Names(k, z.fd, z.sock))
    && (!HoldsSocket(p) ==> !IsOpen(k, z.sock))
    && (p.ClosedNow? || p.Forgotten? ==> z.fd !in k.fds)
    && (p.ClosedNow? ==> z.handle == z.fd)
    && (p.Forgotten? || p.Gone? ==> z.handle == INVALID)
    && (p.Starting? <==> z.thread.NotStarted?)
    && (p.Gone? <==> z.thread.Joined?)
    && (p.Waiting? || p.ClosedNow? || p.Forgotten? || p.Gone? ==> z.marked)
    && (z.thread.Exited? ==> z.marked)
    && (z.thread.Have? ==> z.thread.h == INVALID || z.thread.h == z.fd)
    && (z.thread.Blocked? && z.thread.on.Some? ==> z.thread.on.value == z.sock)
    && (z.thread.Replying? ==> z.thread.x == z.sock)
  }

  predicate Serving(s: State) {
    s.control.Up? || s.control.ShutListen? || s.control.CloseListen? || s.control.ForgetListen? || s.control.JoinLoop?
  }

  predicate ListenerOpen(s: State) {
    s.control.Up? || s.control.ShutListen? || s.control.CloseListen?
  }

  ghost predicate ControlOk(s: State) {
    && (s.running <==> s.control.Up?)
    && (s.loop.Off? <==> !Serving(s))
    && (s.resolver.Off? <==> !Serving(s) && !s.control.JoinResolver?)
    && (ListenerOpen(s) ==> Names(s.k, s.listen, s.listenSock))
    && (s.control.ForgetListen? || s.control.JoinLoop? ==> !IsOpen(s.k, s.listenSock))
    && (!ListenerOpen(s) && !s.control.ForgetListen? ==> s.listen == INVALID)
    && (Serving(s) ==> s.listenSock < s.k.next)
    && (s.control.Candidate? ==> Names(s.k, s.control.h, s.control.x))
    && (s.control.SweepAll? ==> s.control.list == [])
    && Clock.IsTime(s.clock) && 0 <= s.lastCleanup <= s.clock
  }

  ghost predicate LoopOk(s: State) {
    && (s.loop.Off? || s.loop.Exited? || (s.loop.Sweep? && s.loop.force) ==> s.table == map[])
    && ((s.loop.Select? || s.loop.Sweep?) && s.loop.force ==> !s.running)
    && (s.loop.Load? && s.control.ForgetListen? ==> s.listen !in s.k.fds)
    && (s.loop.Have? && s.loop.h in s.k.fds ==> s.k.fds[s.loop.h] == s.listenSock)
    && (s.loop.Blocked? && s.loop.on.Some? ==> s.loop.on.value == s.listenSock)
    && (s.loop.Snapshot? || s.loop.Opening? || s.loop.Insert? ==> s.loop.client !in s.table)
    && (s.loop.Opening? ==> s.loop.snap != [])
    && (s.loop.Insert? ==>
          && Names(s.k, s.loop.h, s.loop.x) && s.loop.x != s.listenSock
          && forall i :: 0 <= i < |s.sessions| ==> s.sessions[i].sock != s.loop.x)
    && (s.loop.Start? || s.loop.Touch? || s.loop.Send? ==>
          s.loop.client in s.table && s.table[s.loop.client] == s.loop.i)
    && (s.loop.Sweep? ==>
          && (forall a, b :: 0 <= a < b < |s.loop.list| ==> s.loop.list[a] != s.loop.list[b])
          && (forall i :: i in s.loop.list ==> i < |s.sessions| && !Listed(s, i))
          && (s.loop.list == [] ==> s.loop.stage.Shutdown?))
  }

  /** Every open handle belongs to somebody. */
  ghost predicate Held(s: State, h: int) {
    || (ListenerOpen(s) && h == s.listen)
    || (s.control.Candidate? && h == s.control.h)
    || (s.loop.Insert? && h == s.loop.h)
    || exists i :: 0 <= i < |s.sessions| && s.sessions[i].fd == h && HoldsSocket(PlaceOf(s, i))
  }

  ghost predicate TableOk(s: State) {
    && (forall c :: c in s.table ==> s.table[c] < |s.sessions| && s.sessions[s.table[c]].client == c)
    && (forall i :: 0 <= i < |s.sessions| ==> SessionOk(s.sessions[i], PlaceOf(s, i), s.k))
    && (forall i, j :: 0 <= i < j < |s.sessions| ==> s.sessions[i].sock != s.sessions[j].sock)
    && (forall i :: 0 <= i < |s.sessions| && Serving(s) ==> s.sessions[i].sock != s.listenSock)
    && (forall i :: 0 <= i < |s.sessions| ==> 0 <= s.sessions[i].lastActive <= s.clock)
  }

  ghost predicate Inv(cfg: Config, s: State) {
    && Valid(s.k)
    && ControlOk(s)
    && LoopOk(s)
    && TableOk(s)
    && forall h :: h in s.k.fds ==> Held(s, h)
  }

  lemma InitialInv(cfg: Config)
    ensures Inv(cfg, INITIAL)
  {
  }

  // Receivers.

  /** What a session is never changes, and a mark is never taken back. */
  predicate SameRecord(z: Session, z': Session) {
    && z'.client == z.client && z'.sock == z.sock && z'.fd == z.fd && z'.target == z.target
    && z'.snapshot == z.snapshot && z'.made == z.made && (z.marked ==> z'.marked)
  }

  /** Records may change, but not whom they belong to. */
  ghost predicate SameIdentities(s: State, s': State) {
    && |s'.sessions| == |s.sessions|
    && forall i :: 0 <= i < |s.sessions| ==>
         && s'.sessions[i].client == s.sessions[i].client
         && s'.sessions[i].sock == s.sessions[i].sock
         && s'.sessions[i].fd == s.sessions[i].fd
  }

  lemma SamePlaces(s: State, s': State)
    requires SameIdentities(s, s') && s'.table == s.table && s'.loop == s.loop
    ensures forall i :: 0 <= i < |s.sessions| ==> PlaceOf(s', i) == PlaceOf(s, i) && (Listed(s', i) <==> Listed(s, i))
  {
  }

  lemma StillHeld(s: State, s': State, h: int)
    requires Held(s, h) && SameIdentities(s, s') && s'.table == s.table && s'.loop == s.loop
    requires s'.control == s.control && s'.listen == s.listen
    ensures Held(s', h)
  {
    SamePlaces(s, s');
    if i :| 0 <= i < |s.sessions| && s.sessions[i].fd == h && HoldsSocket(PlaceOf(s, i)) {
      assert s'.sessions[i].fd == h && HoldsSocket(PlaceOf(s', i));
    }
  }

  /** Replacing one session record by one that keeps its identity. */
  lemma UpdateSession(cfg: Config, s: State, i: nat, z: Session, s': State)
    requires Inv(cfg, s) && i < |s.sessions|
    requires s'.sessions == s.sessions[i := z] && s'.table == s.table && s'.loop == s.loop
    requires s'.k == s.k && s'.running == s.running && s'.listen == s.listen && s'.listenSock == s.listenSock
    requires s'.control == s.control && s'.resolver == s.resolver && s'.lastCleanup == s.lastCleanup
    requires s.clock <= s'.clock && Clock.IsTime(s'.clock)
    requires z.client == s.sessions[i].client && z.sock == s.sessions[i].sock && z.fd == s.sessions[i].fd
    requires SessionOk(z, PlaceOf(s, i), s.k) && 0 <= z.lastActive <= s'.clock
    ensures Inv(cfg, s')
  {
    assert SameIdentities(s, s');
    forall h | h in s.k.fds ensures Held(s', h) { StillHeld(s, s', h); }
    UpdateKeepsTable(s, i, z, s');
    UpdateKeepsRest(s, s');
  }

  lemma UpdateKeepsTable(s: State, i: nat, z: Session, s': State)
    requires TableOk(s) && i < |s.sessions| && SameIdentities(s, s') && s'.sessions == s.sessions[i := z]
    requires s'.table == s.table && s'.loop == s.loop && s'.control == s.control
    requires s'.k == s.k && s'.listenSock == s.listenSock && s.clock <= s'.clock
    requires SessionOk(z, PlaceOf(s, i), s.k) && 0 <= z.lastActive <= s'.clock
    ensures TableOk(s')
  {
    SamePlaces(s, s');
  }

  lemma UpdateKeepsRest(s: State, s': State)
    requires ControlOk(s) && LoopOk(s) && SameIdentities(s, s') && s'.table == s.table && s'.loop == s.loop
    requires s'.k == s.k && s'.running == s.running && s'.listen == s.listen && s'.listenSock == s.listenSock
    requires s'.control == s.control && s'.resolver == s.resolver && s'.lastCleanup == s.lastCleanup
    requires s.clock <= s'.clock && Clock.IsTime(s'.clock)
    ensures ControlOk(s') && LoopOk(s')
  {
    SamePlaces(s, s');
  }

  lemma ReceiverKeepsSession(s: State, i: nat, a: Act, p: Place)
    requires ReceiverNext(s, i, a).Some? && SessionOk(s.sessions[i], p, s.k) && Valid(s.k)
    ensures SessionOk(ReceiverNext(s, i, a).value.sessions[i], p, s.k)
  {
    var z := s.sessions[i];
    if z.thread.Load? || z.thread.Have? {
      ReceiverLooksUp(s, i, a, p);
    }
  }

  /** Between loading the handle and entering recvfrom the session may be closed, but the number
      cannot have been given away. */
  lemma ReceiverLooksUp(s: State, i: nat, a: Act, p: Place)
    requires ReceiverNext(s, i, a).Some? && SessionOk(s.sessions[i], p, s.k)
    requires Valid(s.k) && (s.sessions[i].thread.Load? || s.sessions[i].thread.Have?)
    ensures SessionOk(ReceiverNext(s, i, a).value.sessions[i], p, s.k)
  {
    assert !p.Gone? && !p.Starting?;
  }

  lemma ReceiverFrame(s: State, i: nat, a: Act)
    requires ReceiverNext(s, i, a).Some?
    ensures var s' := ReceiverNext(s, i, a).value;
      && i < |s.sessions| && s'.sessions == s.sessions[i := s'.sessions[i]]
      && s'.k == s.k && s'.running == s.running && s'.listen == s.listen && s'.listenSock == s.listenSock
      && s'.control == s.control && s'.loop == s.loop && s'.resolver == s.resolver
      && s'.cache == s.cache && s'.resolutions == s.resolutions && s'.forwards == s.forwards
      && s'.table == s.table && s'.lastCleanup == s.lastCleanup && s.clock <= s'.clock
      && (s'.clock == s.clock || Clock.IsTime(s'.clock))
      && (s'.sessions[i].lastActive == s.sessions[i].lastActive || s'.sessions[i].lastActive == s'.clock)
      && SameRecord(s.sessions[i], s'.sessions[i])
      && s'.sessions[i].handle == s.sessions[i].handle && s'.sessions[i].up == s.sessions[i].up
  {
    ReceiverElsewhere(s, i, a);
  }

  lemma ReceiverElsewhere(s: State, i: nat, a: Act)
    requires ReceiverNext(s, i, a).Some?
    ensures var s' := ReceiverNext(s, i, a).value;
      && i < |s.sessions| && s'.sessions == s.sessions[i := s'.sessions[i]]
      && s'.k == s.k && s'.running == s.running && s'.listen == s.listen && s'.listenSock == s.listenSock
      && s'.control == s.control && s'.loop == s.loop && s'.resolver == s.resolver
      && s'.cache == s.cache && s'.resolutions == s.resolutions && s'.forwards == s.forwards
      && s'.table == s.table && s'.lastCleanup == s.lastCleanup
  {
  }

  lemma ReceiverKeepsInv(cfg: Config, s: State, i: nat, a: Act)
    requires Inv(cfg, s) && ReceiverNext(s, i, a).Some?
    ensures Inv(cfg, ReceiverNext(s, i, a).value)
  {
    var s' := ReceiverNext(s, i, a).value;
    ReceiverFrame(s, i, a);
    ReceiverKeepsSession(s, i, a, PlaceOf(s, i));
    UpdateSession(cfg, s, i, s'.sessions[i], s');
  }

  // The loop thread.

  predicate Plain(l: Loop) {
    !l.Start? && !l.Sweep? && !l.Insert?
  }

  /** The loop moves between two points at which it owns no session and no socket. */
  lemma MoveLoop(cfg: Config, s: State, s': State)
    requires Inv(cfg, s) && Plain(s.loop) && Plain(s'.loop)
    requires s'.sessions == s.sessions && s'.table == s.table && s'.k == s.k && s'.running == s.running
    requires s'.listen == s.listen && s'.listenSock == s.listenSock && s'.control == s.control
    requires s'.resolver == s.resolver
    requires s.clock <= s'.clock && Clock.IsTime(s'.clock) && 0 <= s'.lastCleanup <= s'.clock
    requires (s'.loop.Off? <==> s.loop.Off?) && LoopOk(s')
    ensures Inv(cfg, s')
  {
    forall i | 0 <= i < |s.sessions| ensures PlaceOf(s', i) == PlaceOf(s, i) {
      assert Listed(s', i) <==> Listed(s, i);
    }
    forall h | h in s.k.fds ensures Held(s', h) {
      assert Held(s, h);
      if i :| 0 <= i < |s.sessions| && s.sessions[i].fd == h && HoldsSocket(PlaceOf(s, i)) {
        assert s'.sessions[i].fd == h && HoldsSocket(PlaceOf(s', i));
      }
    }
    assert ControlOk(s');
    assert TableOk(s');
  }

  predicate Simple(s: State) {
    !s.loop.Opening? && !s.loop.Insert? && !s.loop.Start? && !s.loop.Touch? && !s.loop.Send?
    && !s.loop.Select? && !s.loop.Sweep?
  }

  lemma SimpleFrame(cfg: Config, s: State, a: Act)
    requires Simple(s) && LoopNext(cfg, s, a).Some?
    ensures var s' := LoopNext(cfg, s, a).value;
      && s'.sessions == s.sessions && s'.table == s.table && s'.k == s.k && s'.running == s.running
      && s'.listen == s.listen && s'.listenSock == s.listenSock && s'.control == s.control && s'.resolver == s.resolver
      && s.clock <= s'.clock && (s'.clock == s.clock || Clock.IsTime(s'.clock))
      && (s'.lastCleanup == s.lastCleanup || s'.lastCleanup == s'.clock)
      && !s'.loop.Off? && !s.loop.Off? && Plain(s.loop) && Plain(s'.loop)
      && s'.cache == s.cache && s'.resolutions == s.resolutions && s'.replies == s.replies && s'.forwards == s.forwards
  {
  }

  /** The points of the loop before a datagram is in hand. */
  predicate Receiving(l: Loop) {
    l.Init? || l.Top? || l.Load? || l.Have? || l.Blocked?
  }

  lemma ReceivingKeepsLoopOk(cfg: Config, s: State, a: Act)
    requires Receiving(s.loop) && LoopNext(cfg, s, a).Some? && LoopOk(s) && ControlOk(s) && Valid(s.k)
    ensures LoopOk(LoopNext(cfg, s, a).value)
  {
  }

  lemma SimpleKeepsLoopOk(cfg: Config, s: State, a: Act)
    requires Simple(s) && !Receiving(s.loop) && LoopNext(cfg, s, a).Some? && LoopOk(s)
    ensures LoopOk(LoopNext(cfg, s, a).value)
  {
  }

  lemma SimpleKeepsInv(cfg: Config, s: State, a: Act)
    requires Inv(cfg, s) && Simple(s) && LoopNext(cfg, s, a).Some?
    ensures Inv(cfg, LoopNext(cfg, s, a).value)
  {
    SimpleFrame(cfg, s, a);
    if Receiving(s.loop) { ReceivingKeepsLoopOk(cfg, s, a); } else { SimpleKeepsLoopOk(cfg, s, a); }
    MoveLoop(cfg, s, LoopNext(cfg, s, a).value);
  }

  /** A new socket gets a number no session can still use: all of them either own an open socket
      or are done with. */
  lemma OpenKeepsSession(z: Session, p: Place, k: Kernel, h: int)
    requires Valid(k) && Free(k, h) && SessionOk(z, p, k) && !p.ClosedNow? && !p.Forgotten?
    ensures SessionOk(z, p, Open(k, h))
  {
    OpenKeepsValid(k, h);
  }

  lemma OpeningKeepsInv(cfg: Config, s: State, a: Act)
    requires Inv(cfg, s) && s.loop.Opening? && LoopNext(cfg, s, a).Some?
    ensures Inv(cfg, LoopNext(cfg, s, a).value)
  {
    var s' := LoopNext(cfg, s, a).value;
    OpeningFrame(cfg, s, a);
    if a.NoSocket? {
      MoveLoop(cfg, s, s');
    } else {
      OpenedKeepsTable(cfg, s, s', a.h);
      OpenedKeepsRest(cfg, s, s', a.h);
      OpenedHolds(cfg, s, s', a.h);
    }
  }

  /** The loop makes a socket under number `h` and goes on to insert a session for it. */
  predicate Opens(s: State, s': State, h: int) {
    && s.loop.Opening? && s'.loop.Insert? && Free(s.k, h) && s' == s.(k := Open(s.k, h), loop := s'.loop)
    && s'.loop.h == h && s'.loop.x == s.k.next && s'.loop.client == s.loop.client
  }

  lemma OpeningFrame(cfg: Config, s: State, a: Act)
    requires s.loop.Opening? && LoopNext(cfg, s, a).Some?
    ensures if a.NoSocket? then LoopNext(cfg, s, a).value == s.(loop := Maybe)
            else a.Opened? && Opens(s, LoopNext(cfg, s, a).value, a.h)
  {
  }

  lemma OpenedKeepsTable(cfg: Config, s: State, s': State, h: int)
    requires Inv(cfg, s) && Opens(s, s', h)
    ensures TableOk(s') && Valid(s'.k) && forall i :: 0 <= i < |s.sessions| ==> PlaceOf(s', i) == PlaceOf(s, i)
  {
    OpenKeepsValid(s.k, h);
    forall i | 0 <= i < |s.sessions|
      ensures PlaceOf(s', i) == PlaceOf(s, i) && SessionOk(s'.sessions[i], PlaceOf(s', i), s'.k)
    {
      assert Listed(s', i) <==> Listed(s, i);
      OpenKeepsSession(s.sessions[i], PlaceOf(s, i), s.k, h);
    }
  }

  lemma OpenedKeepsRest(cfg: Config, s: State, s': State, h: int)
    requires Inv(cfg, s) && Opens(s, s', h)
    ensures LoopOk(s') && ControlOk(s')
  {
    OpenKeepsValid(s.k, h);
    forall i | 0 <= i < |s.sessions| ensures s.sessions[i].sock != s.k.next {
      assert SessionOk(s.sessions[i], PlaceOf(s, i), s.k);
    }
  }

  lemma OpenedHolds(cfg: Config, s: State, s': State, h: int)
    requires Inv(cfg, s) && Opens(s, s', h)
    ensures forall g :: g in s'.k.fds ==> Held(s', g)
  {
    OpenedKeepsTable(cfg, s, s', h);
    forall g | g in s'.k.fds ensures Held(s', g) {
      if g != h {
        assert Held(s, g);
        if i :| 0 <= i < |s.sessions| && s.sessions[i].fd == g && HoldsSocket(PlaceOf(s, i)) {
          assert s'.sessions[i].fd == g && HoldsSocket(PlaceOf(s', i));
        }
      }
    }
  }

  /** The step, given that the client is not in the table. */
  function Inserted(s: State, now: int): State
    requires s.loop.Insert?
  {
    var l := s.loop;
    s.(clock := now,
       sessions := s.sessions + [Session(l.client, l.x, l.h, l.h, l.target, l.snap, l.made, now, false, NotStarted,
                                         Tally(0, 0), Tally(0, 0))],
       table := s.table[l.client := |s.sessions|],
       loop := Start(l.client, |s.sessions|, l.payload))
  }

  lemma InsertFrame(cfg: Config, s: State, a: Act)
    requires s.loop.Insert? && LoopNext(cfg, s, a).Some? && s.loop.client !in s.table
    ensures a.Now? && Tick(s, a.now) && LoopNext(cfg, s, a).value == Inserted(s, a.now)
  {
  }

  lemma InsertKeepsPlaces(cfg: Config, s: State, now: int)
    requires Inv(cfg, s) && s.loop.Insert?
    ensures var s', n := Inserted(s, now), |s.sessions|;
      && (forall i :: 0 <= i < n ==> PlaceOf(s', i) == PlaceOf(s, i))
      && PlaceOf(s', n) == Starting && SessionOk(s'.sessions[n], Starting, s'.k)
  {
    var s', n := Inserted(s, now), |s.sessions|;
    forall i | 0 <= i < n ensures PlaceOf(s', i) == PlaceOf(s, i) {
      assert Listed(s', i) <==> Listed(s, i);
    }
    assert Listed(s', n);
  }

  lemma InsertHolds(cfg: Config, s: State, now: int)
    requires Inv(cfg, s) && s.loop.Insert?
    ensures forall h :: h in s.k.fds ==> Held(Inserted(s, now), h)
  {
    var s', n := Inserted(s, now), |s.sessions|;
    InsertKeepsPlaces(cfg, s, now);
    forall h | h in s.k.fds ensures Held(s', h) {
      assert Held(s, h);
      if h == s.loop.h {
        assert s'.sessions[n].fd == h && HoldsSocket(PlaceOf(s', n));
      } else if i :| 0 <= i < n && s.sessions[i].fd == h && HoldsSocket(PlaceOf(s, i)) {
        assert s'.sessions[i].fd == h && HoldsSocket(PlaceOf(s', i));
      }
    }
  }

  lemma InsertKeepsInv(cfg: Config, s: State, a: Act)
    requires Inv(cfg, s) && s.loop.Insert? && LoopNext(cfg, s, a).Some?
    ensures Inv(cfg, LoopNext(cfg, s, a).value)
  {
    InsertFrame(cfg, s, a);
    InsertKeepsPlaces(cfg, s, a.now);
    InsertHolds(cfg, s, a.now);
    var s' := Inserted(s, a.now);
    assert TableOk(s');
    assert LoopOk(s');
    assert ControlOk(s');
  }

  function Started(s: State): State
    requires s.loop.Start? && s.loop.i < |s.sessions|
  {
    s.(sessions := s.sessions[s.loop.i := s.sessions[s.loop.i].(thread := Receiver.Top)],
       loop := Touch(s.loop.client, s.loop.i, s.loop.payload))
  }

  lemma StartFrame(cfg: Config, s: State, a: Act)
    requires s.loop.Start? && LoopNext(cfg, s, a).Some?
    ensures s.loop.i < |s.sessions| && LoopNext(cfg, s, a).value == Started(s)
  {
  }

  lemma StartKeepsInv(cfg: Config, s: State, a: Act)
    requires Inv(cfg, s) && s.loop.Start? && LoopNext(cfg, s, a).Some?
    ensures Inv(cfg, LoopNext(cfg, s, a).value)
  {
    StartFrame(cfg, s, a);
    StartedKeepsInv(cfg, s);
  }

  lemma StartedSession(z: Session, k: Kernel)
    requires SessionOk(z, Starting, k)
    ensures SessionOk(z.(thread := Receiver.Top), Tabled, k)
  {
  }

  lemma StartedKeepsInv(cfg: Config, s: State)
    requires Inv(cfg, s) && s.loop.Start? && s.loop.i < |s.sessions|
    ensures Inv(cfg, Started(s))
  {
    var s', n := Started(s), s.loop.i;
    assert SameIdentities(s, s');
    forall i | 0 <= i < |s.sessions| ensures PlaceOf(s', i) == if i == n then Tabled else PlaceOf(s, i) {
      assert Listed(s', i) <==> Listed(s, i);
    }
    StartedSession(s.sessions[n], s.k);
    StartHolds(s, s', n);
    assert TableOk(s');
    StartedKeepsRest(s);
  }

  lemma StartedKeepsRest(s: State)
    requires ControlOk(s) && LoopOk(s) && s.loop.Start? && s.loop.i < |s.sessions|
    ensures ControlOk(Started(s)) && LoopOk(Started(s))
  {
  }

  lemma StartHolds(s: State, s': State, n: nat)
    requires SameIdentities(s, s') && s'.k == s.k && s'.control == s.control && s'.listen == s.listen
    requires !s.loop.Insert? && forall h :: h in s.k.fds ==> Held(s, h)
    requires forall i :: 0 <= i < |s.sessions| ==> PlaceOf(s', i) == if i == n then Tabled else PlaceOf(s, i)
    ensures forall h :: h in s'.k.fds ==> Held(s', h)
  {
    forall h | h in s'.k.fds ensures Held(s', h) {
      assert Held(s, h);
      if i :| 0 <= i < |s.sessions| && s.sessions[i].fd == h && HoldsSocket(PlaceOf(s, i)) {
        assert s'.sessions[i].fd == h && HoldsSocket(PlaceOf(s', i));
      }
    }
  }

  lemma TouchOrSendFrame(cfg: Config, s: State, a: Act)
    requires (s.loop.Touch? || s.loop.Send?) && LoopNext(cfg, s, a).Some?
    ensures var s' := LoopNext(cfg, s, a).value; var i := s.loop.i;
      && i < |s.sessions| && s'.sessions == s.sessions[i := s'.sessions[i]]
      && s'.k == s.k && s'.running == s.running && s'.listen == s.listen && s'.listenSock == s.listenSock
      && s'.control == s.control && s'.resolver == s.resolver && s'.cache == s.cache && s'.resolutions == s.resolutions
      && s'.table == s.table && s'.lastCleanup == s.lastCleanup && s.clock <= s'.clock
      && (s'.clock == s.clock || Clock.IsTime(s'.clock))
      && s'.replies == s.replies && (s'.loop.Maybe? || s'.loop == Send(s.loop.client, i, s.loop.payload))
      && (s'.sessions[i].lastActive == s.sessions[i].lastActive || s'.sessions[i].lastActive == s'.clock)
      && SameRecord(s.sessions[i], s'.sessions[i]) && s'.sessions[i].down == s.sessions[i].down
      && s'.sessions[i].(lastActive := 0, marked := true, up := s.sessions[i].up)
         == s.sessions[i].(lastActive := 0, marked := true)
  {
  }

  lemma TouchOrSendKeepsInv(cfg: Config, s: State, a: Act)
    requires Inv(cfg, s) && (s.loop.Touch? || s.loop.Send?) && LoopNext(cfg, s, a).Some?
    ensures Inv(cfg, LoopNext(cfg, s, a).value)
  {
    var s' := LoopNext(cfg, s, a).value;
    var mid := s'.(loop := s.loop);
    var i := s.loop.i;
    TouchOrSendFrame(cfg, s, a);
    SessionOkIgnores(s.sessions[i], s'.sessions[i], PlaceOf(s, i), s.k);
    UpdateSession(cfg, s, i, s'.sessions[i], mid);
    MoveLoop(cfg, mid, s');
  }

  lemma SessionOkIgnores(z: Session, z': Session, p: Place, k: Kernel)
    requires SessionOk(z, p, k) && (z.marked ==> z'.marked)
    requires z'.(lastActive := 0, marked := true, up := z.up) == z.(lastActive := 0, marked := true)
    ensures SessionOk(z', p, k) && z'.client == z.client && z'.sock == z.sock && z'.fd == z.fd
  {
    assert z'.(lastActive := 0, marked := true, up := z.up).thread == z'.thread;
  }

  // The sweep.

  lemma SelectedListed(cfg: Config, s: State, force: bool, now: int, order: seq<nat>, i: nat)
    requires IsSelection(cfg, s, force, now, order) && TableOk(s) && i < |s.sessions|
    ensures Listed(Selected(s, now, order), i) <==> Listed(s, i) && i !in order
  {
    var s' := Selected(s, now, order);
    assert s'.sessions[i].client == s.sessions[i].client;
  }

  lemma MarkedSession(z: Session, k: Kernel)
    requires SessionOk(z, Tabled, k)
    ensures SessionOk(z.(marked := true), Waiting, k)
  {
  }

  lemma ForcedSelectionIsAll(cfg: Config, s: State, now: int, order: seq<nat>)
    requires IsSelection(cfg, s, true, now, order) && TableOk(s)
    ensures Selected(s, now, order).table == map[]
  {
    forall c | c in s.table ensures s.table[c] in order {
      assert Listed(s, s.table[c]);
    }
  }

  lemma SelectFrame(cfg: Config, s: State, a: Act)
    requires s.loop.Select? && LoopNext(cfg, s, a).Some?
    ensures a.Chosen? && Tick(s, a.now) && IsSelection(cfg, s, s.loop.force, a.now, a.order)
    ensures LoopNext(cfg, s, a).value == Selected(s, a.now, a.order).(loop := Sweep(a.order, Shutdown, s.loop.force))
  {
  }

  lemma SelectKeepsInv(cfg: Config, s: State, now: int, order: seq<nat>, force: bool)
    requires Inv(cfg, s) && s.loop == Select(force) && Tick(s, now) && IsSelection(cfg, s, force, now, order)
    ensures Inv(cfg, Selected(s, now, order).(loop := Sweep(order, Shutdown, force)))
  {
    var s' := Selected(s, now, order).(loop := Sweep(order, Shutdown, force));
    SelectedPlaces(cfg, s, now, order, force);
    if force { ForcedSelectionIsAll(cfg, s, now, order); }
    assert SameIdentities(s, s');
    SelectHolds(s, s');
    assert TableOk(s');
    SelectedKeepsRest(cfg, s, now, order, force);
  }

  lemma SelectedPlaces(cfg: Config, s: State, now: int, order: seq<nat>, force: bool)
    requires Inv(cfg, s) && s.loop == Select(force) && Tick(s, now) && IsSelection(cfg, s, force, now, order)
    ensures var s' := Selected(s, now, order).(loop := Sweep(order, Shutdown, force));
      forall i :: 0 <= i < |s.sessions| ==>
        && (Listed(s', i) <==> Listed(s, i) && i !in order)
        && PlaceOf(s', i) == (if i in order then Waiting else PlaceOf(s, i))
        && SessionOk(s'.sessions[i], PlaceOf(s', i), s'.k)
  {
    var s' := Selected(s, now, order).(loop := Sweep(order, Shutdown, force));
    forall i | 0 <= i < |s.sessions|
      ensures Listed(s', i) <==> Listed(s, i) && i !in order
      ensures PlaceOf(s', i) == if i in order then Waiting else PlaceOf(s, i)
      ensures SessionOk(s'.sessions[i], PlaceOf(s', i), s'.k)
    {
      SelectedListed(cfg, s, force, now, order, i);
      assert SessionOk(s.sessions[i], PlaceOf(s, i), s.k);
      if i in order { MarkedSession(s.sessions[i], s.k); }
    }
  }

  lemma SelectedKeepsRest(cfg: Config, s: State, now: int, order: seq<nat>, force: bool)
    requires Inv(cfg, s) && s.loop == Select(force) && Tick(s, now) && IsSelection(cfg, s, force, now, order)
    requires force ==> Selected(s, now, order).table == map[]
    requires forall i: nat :: i in order ==> !Listed(Selected(s, now, order), i)
    ensures var s' := Selected(s, now, order).(loop := Sweep(order, Shutdown, force)); LoopOk(s') && ControlOk(s')
  {
    var s' := Selected(s, now, order).(loop := Sweep(order, Shutdown, force));
    forall i: nat | i in order ensures i < |s'.sessions| && !Listed(s', i) {
      assert Listed(s, i) && !Listed(Selected(s, now, order), i);
    }
    SweepBegins(s, s', order, force);
  }

  lemma SweepBegins(s: State, s': State, order: seq<nat>, force: bool)
    requires ControlOk(s) && LoopOk(s) && s.loop == Select(force) && s'.loop == Sweep(order, Shutdown, force)
    requires s'.k == s.k && s'.running == s.running && s'.listen == s.listen && s'.listenSock == s.listenSock
    requires s'.control == s.control && s'.resolver == s.resolver && s'.lastCleanup == s.lastCleanup
    requires s.clock <= s'.clock && Clock.IsTime(s'.clock) && (force ==> s'.table == map[])
    requires forall i, j :: 0 <= i < j < |order| ==> order[i] != order[j]
    requires forall i: nat :: i in order ==> i < |s'.sessions| && !Listed(s', i)
    ensures LoopOk(s') && ControlOk(s')
  {
  }

  lemma SelectHolds(s: State, s': State)
    requires SameIdentities(s, s') && s'.k == s.k && s'.control == s.control && s'.listen == s.listen && !s.loop.Insert?
    requires forall h :: h in s.k.fds ==> Held(s, h)
    requires forall i :: 0 <= i < |s.sessions| && HoldsSocket(PlaceOf(s, i)) ==> HoldsSocket(PlaceOf(s', i))
    ensures forall h :: h in s'.k.fds ==> Held(s', h)
  {
    forall h | h in s'.k.fds ensures Held(s', h) {
      assert Held(s, h);
      if i :| 0 <= i < |s.sessions| && s.sessions[i].fd == h && HoldsSocket(PlaceOf(s, i)) {
        assert s'.sessions[i].fd == h && HoldsSocket(PlaceOf(s', i));
      }
    }
  }

  /** The closing part, as the loop runs it. */
  function SweepNext(s: State): Option<State>
    requires s.loop.Sweep? && s.loop.list != []
  {
    match CloseStep(s, s.loop.list, s.loop.stage)
    case None => None
    case Some((s', list', stage')) => Some(s'.(loop := Sweep(list', stage', s.loop.force)))
  }

  lemma SweepFrame(cfg: Config, s: State, a: Act)
    requires s.loop.Sweep? && LoopNext(cfg, s, a).Some?
    ensures s.loop.list == [] ==>
              LoopNext(cfg, s, a).value == s.(loop := if s.loop.force then Loop.Exited else Loop.Top)
    ensures s.loop.list != [] ==> LoopNext(cfg, s, a) == SweepNext(s)
  {
  }

  lemma SweptKeepsInv(cfg: Config, s: State)
    requires Inv(cfg, s) && s.loop.Sweep? && s.loop.list == []
    ensures Inv(cfg, s.(loop := if s.loop.force then Loop.Exited else Loop.Top))
  {
    var s' := s.(loop := if s.loop.force then Loop.Exited else Loop.Top);
    forall i | 0 <= i < |s.sessions| ensures PlaceOf(s', i) == PlaceOf(s, i) {
      assert Listed(s', i) <==> Listed(s, i);
    }
    SelectHolds(s, s');
    assert TableOk(s') && LoopOk(s') && ControlOk(s');
  }

  lemma ShutdownStageKeepsInv(cfg: Config, s: State)
    requires Inv(cfg, s) && s.loop.Sweep? && s.loop.list != [] && s.loop.stage.Shutdown?
    requires s.loop.list[0] < |s.sessions|
    ensures Inv(cfg, s.(shut := s.shut + Reached(s.k, s.sessions[s.loop.list[0]].handle),
                        loop := s.loop.(stage := Close)))
  {
    var s' := s.(shut := s.shut + Reached(s.k, s.sessions[s.loop.list[0]].handle),
                 loop := s.loop.(stage := Close));
    forall i | 0 <= i < |s.sessions| ensures PlaceOf(s', i) == PlaceOf(s, i) {
      assert Listed(s', i) <==> Listed(s, i);
    }
    SelectHolds(s, s');
    assert TableOk(s') && LoopOk(s') && ControlOk(s');
  }

  /** The places after an action on the session at the head of the list. */
  ghost predicate HeadMoved(s: State, s': State, place: Place) {
    && s.loop.Sweep? && s.loop.list != [] && SameIdentities(s, s')
    && forall i :: 0 <= i < |s.sessions| ==>
         && (Listed(s', i) <==> Listed(s, i))
         && PlaceOf(s', i) == (if i == s.loop.list[0] then place else PlaceOf(s, i))
  }

  lemma HeadMoves(s: State, s': State)
    requires s.loop.Sweep? && s.loop.list != [] && SameIdentities(s, s') && s'.table == s.table && s'.loop.Sweep?
    requires s.loop.list[0] < |s.sessions| && !Listed(s, s.loop.list[0])
    requires s'.loop.list == s.loop.list
    ensures s.loop.stage.Close? && s'.loop.stage.Invalidate? ==> HeadMoved(s, s', ClosedNow)
    ensures s.loop.stage.Invalidate? && s'.loop.stage.Join? ==> HeadMoved(s, s', Forgotten)
  {
    assert s.loop.list[0] in s.loop.list;
    forall i | 0 <= i < |s.sessions| ensures Listed(s', i) <==> Listed(s, i) {}
  }

  lemma HeadLeaves(s: State, s': State)
    requires s.loop.Sweep? && s.loop.list != [] && SameIdentities(s, s') && s'.table == s.table && s'.loop.Sweep?
    requires s.loop.list[0] < |s.sessions| && !Listed(s, s.loop.list[0])
    requires forall a, b :: 0 <= a < b < |s.loop.list| ==> s.loop.list[a] != s.loop.list[b]
    requires s'.loop.list == s.loop.list[1..] && s'.loop.stage.Shutdown?
    ensures HeadMoved(s, s', Gone)
  {
    forall i | 0 <= i < |s.sessions|
      ensures (Listed(s', i) <==> Listed(s, i)) && (i in s.loop.list <==> i == s.loop.list[0] || i in s'.loop.list)
    {
      assert s.loop.list == [s.loop.list[0]] + s'.loop.list;
    }
  }

  lemma HeadHolds(s: State, s': State, place: Place)
    requires HeadMoved(s, s', place) && s.loop.list[0] < |s.sessions|
    requires s'.control == s.control && s'.listen == s.listen
    requires forall h :: h in s.k.fds ==> Held(s, h)
    requires forall h :: h in s'.k.fds ==> h in s.k.fds
    requires HoldsSocket(PlaceOf(s, s.loop.list[0])) ==> s.sessions[s.loop.list[0]].fd !in s'.k.fds
    ensures forall h :: h in s'.k.fds ==> Held(s', h)
  {
    forall h | h in s'.k.fds ensures Held(s', h) {
      assert Held(s, h);
      if i :| 0 <= i < |s.sessions| && s.sessions[i].fd == h && HoldsSocket(PlaceOf(s, i)) {
        assert s'.sessions[i].fd == h && HoldsSocket(PlaceOf(s', i));
      }
    }
  }

  lemma ClosedSession(z: Session, k: Kernel)
    requires Valid(k) && SessionOk(z, Waiting, k)
    ensures SessionOk(z, ClosedNow, Sockets.Close(k, z.fd))
  {
    CloseKeepsValid(k, z.fd);
  }

  lemma CloseKeepsSession(z: Session, p: Place, k: Kernel, h: int)
    requires Valid(k) && SessionOk(z, p, k) && h in k.fds && (HoldsSocket(p) ==> k.fds[h] != z.sock)
    ensures SessionOk(z, p, Sockets.Close(k, h))
  {
    CloseKeepsValid(k, h);
  }

  lemma CloseStageSessions(s: State, s': State)
    requires Valid(s.k) && TableOk(s) && LoopOk(s) && s.loop.Sweep? && s.loop.list != [] && s.loop.stage.Close?
    requires s.loop.list[0] < |s.sessions| && PlaceOf(s, s.loop.list[0]) == Waiting && HeadMoved(s, s', ClosedNow)
    requires s'.k == Sockets.Close(s.k, s.sessions[s.loop.list[0]].fd) && s'.sessions == s.sessions
    ensures forall i :: 0 <= i < |s'.sessions| ==> SessionOk(s'.sessions[i], PlaceOf(s', i), s'.k)
  {
    var n := s.loop.list[0];
    ClosedSession(s.sessions[n], s.k);
    forall i | 0 <= i < |s.sessions| && i != n ensures SessionOk(s.sessions[i], PlaceOf(s, i), s'.k) {
      assert SessionOk(s.sessions[n], Waiting, s.k);
      CloseKeepsSession(s.sessions[i], PlaceOf(s, i), s.k, s.sessions[n].fd);
    }
  }

  lemma CloseStageKeepsInv(cfg: Config, s: State)
    requires Inv(cfg, s) && s.loop.Sweep? && s.loop.list != [] && s.loop.stage.Close?
    requires s.loop.list[0] < |s.sessions|
    ensures Inv(cfg, s.(k := Sockets.Close(s.k, s.sessions[s.loop.list[0]].handle),
                        loop := s.loop.(stage := Invalidate)))
  {
    var n := s.loop.list[0];
    assert n in s.loop.list;
    assert PlaceOf(s, n) == Waiting && SessionOk(s.sessions[n], Waiting, s.k);
    CloseKeepsValid(s.k, s.sessions[n].fd);
    var s' := s.(k := Sockets.Close(s.k, s.sessions[n].handle), loop := s.loop.(stage := Invalidate));
    HeadMoves(s, s');
    CloseStageSessions(s, s');
    HeadHolds(s, s', ClosedNow);
    assert TableOk(s');
    assert LoopOk(s');
    assert ControlOk(s');
  }

  lemma ForgottenSession(z: Session, k: Kernel)
    requires SessionOk(z, ClosedNow, k)
    ensures SessionOk(z.(handle := INVALID), Forgotten, k)
  {
  }

  lemma InvalidateStageKeepsInv(cfg: Config, s: State)
    requires Inv(cfg, s) && s.loop.Sweep? && s.loop.list != [] && s.loop.stage.Invalidate?
    requires s.loop.list[0] < |s.sessions|
    ensures Inv(cfg, With(s, s.loop.list[0], s.sessions[s.loop.list[0]].(handle := INVALID))
                       .(loop := s.loop.(stage := Join)))
  {
    var n := s.loop.list[0];
    assert n in s.loop.list;
    var z := s.sessions[n];
    assert PlaceOf(s, n) == ClosedNow && SessionOk(z, ClosedNow, s.k);
    var s' := With(s, n, z.(handle := INVALID)).(loop := s.loop.(stage := Join));
    HeadMoves(s, s');
    ForgottenSession(z, s.k);
    HeadHolds(s, s', Forgotten);
    assert TableOk(s');
    assert LoopOk(s');
    assert ControlOk(s');
  }

  lemma JoinedSession(z: Session, k: Kernel)
    requires SessionOk(z, Forgotten, k) && z.thread.Exited?
    ensures SessionOk(z.(thread := Joined), Gone, k)
  {
  }

  lemma JoinStageKeepsInv(cfg: Config, s: State)
    requires Inv(cfg, s) && s.loop.Sweep? && s.loop.list != [] && s.loop.stage.Join?
    requires s.loop.list[0] < |s.sessions| && s.sessions[s.loop.list[0]].thread.Exited?
    ensures Inv(cfg, With(s, s.loop.list[0], s.sessions[s.loop.list[0]].(thread := Joined))
                     .(loop := Sweep(s.loop.list[1..], Shutdown, s.loop.force)))
  {
    var n, list := s.loop.list[0], s.loop.list;
    assert n in list;
    var z := s.sessions[n];
    assert PlaceOf(s, n) == Forgotten && SessionOk(z, Forgotten, s.k);
    var s' := With(s, n, z.(thread := Joined)).(loop := Sweep(list[1..], Shutdown, s.loop.force));
    HeadLeaves(s, s');
    JoinedSession(z, s.k);
    HeadHolds(s, s', Gone);
    forall i | i in list[1..] ensures i < |s.sessions| && !Listed(s', i) {
      assert i in list && !Listed(s, i);
      assert Listed(s', i) <==> Listed(s, i);
    }
    assert TableOk(s');
    assert LoopOk(s');
    assert ControlOk(s');
  }

  /** The receiver of a session that is being closed has been started. */
  lemma HeadIsStarted(cfg: Config, s: State)
    requires Inv(cfg, s) && s.loop.Sweep? && s.loop.list != []
    ensures s.loop.list[0] < |s.sessions| && !s.sessions[s.loop.list[0]].thread.NotStarted?
  {
    var n := s.loop.list[0];
    assert n in s.loop.list;
    assert SessionOk(s.sessions[n], PlaceOf(s, n), s.k);
  }

  lemma CloseStepFrame(s: State)
    requires s.loop.Sweep? && s.loop.list != [] && SweepNext(s).Some?
    requires s.loop.list[0] < |s.sessions| && !s.sessions[s.loop.list[0]].thread.NotStarted?
    ensures var n, z, s' := s.loop.list[0], s.sessions[s.loop.list[0]], SweepNext(s).value;
      match s.loop.stage
      case Shutdown => s' == s.(shut := s.shut + Reached(s.k, z.handle), loop := s.loop.(stage := Close))
      case Close => s' == s.(k := Sockets.Close(s.k, z.handle), loop := s.loop.(stage := Invalidate))
      case Invalidate => s' == With(s, n, z.(handle := INVALID)).(loop := s.loop.(stage := Join))
      case Join =>
        && z.thread.Exited?
        && s' == With(s, n, z.(thread := Joined)).(loop := Sweep(s.loop.list[1..], Shutdown, s.loop.force))
  {
  }

  lemma LoopKeepsInv(cfg: Config, s: State, a: Act)
    requires Inv(cfg, s) && LoopNext(cfg, s, a).Some?
    ensures Inv(cfg, LoopNext(cfg, s, a).value)
  {
    match s.loop {
      case Opening(_, _, _) => OpeningKeepsInv(cfg, s, a);
      case Insert(_, _, _, _, _, _, _) => InsertKeepsInv(cfg, s, a);
      case Start(_, _, _) => StartKeepsInv(cfg, s, a);
      case Touch(_, _, _) => TouchOrSendKeepsInv(cfg, s, a);
      case Send(_, _, _) => TouchOrSendKeepsInv(cfg, s, a);
      case Select(force) =>
        SelectFrame(cfg, s, a);
        SelectKeepsInv(cfg, s, a.now, a.order, force);
      case Sweep(list, stage, _) =>
        SweepFrame(cfg, s, a);
        if list == [] {
          SweptKeepsInv(cfg, s);
        } else {
          HeadIsStarted(cfg, s);
          CloseStepFrame(s);
          match stage {
            case Shutdown => ShutdownStageKeepsInv(cfg, s);
            case Close => CloseStageKeepsInv(cfg, s);
            case Invalidate => InvalidateStageKeepsInv(cfg, s);
            case Join => JoinStageKeepsInv(cfg, s);
          }
        }
      case _ => SimpleKeepsInv(cfg, s, a);
    }
  }

  // The resolver thread and the thread that calls Start and Stop.

  lemma ResolverFrame(cfg: Config, s: State, a: Act)
    requires ResolverNext(cfg, s, a).Some?
    ensures var s' := ResolverNext(cfg, s, a).value;
      && s' == s.(resolver := s'.resolver, cache := s'.cache, resolutions := s'.resolutions)
      && !s.resolver.Off? && !s'.resolver.Off?
      && (s' == s.(resolver := s'.resolver) || exists es :: s' == Learn(cfg, s, es).(resolver := s'.resolver))
  {
  }

  lemma ResolverKeepsInv(cfg: Config, s: State, a: Act)
    requires Inv(cfg, s) && ResolverNext(cfg, s, a).Some?
    ensures Inv(cfg, ResolverNext(cfg, s, a).value)
  {
    var s' := ResolverNext(cfg, s, a).value;
    ResolverFrame(cfg, s, a);
    assert SameIdentities(s, s');
    SamePlaces(s, s');
    forall h | h in s'.k.fds ensures Held(s', h) { StillHeld(s, s', h); }
    assert TableOk(s') && LoopOk(s') && ControlOk(s');
  }

  lemma AllGone(s: State)
    requires LoopOk(s) && s.loop.Off?
    ensures forall i :: 0 <= i < |s.sessions| ==> PlaceOf(s, i) == Gone && !Listed(s, i)
  {
  }

  /** Steps of Start and Stop that leave the kernel alone. */
  lemma ControlMoves(cfg: Config, s: State, s': State)
    requires Inv(cfg, s) && s'.k == s.k && s'.table == s.table && s'.sessions == s.sessions && s'.clock == s.clock
    requires Plain(s.loop) || s'.loop == s.loop
    requires Plain(s'.loop) || s'.loop == s.loop
    requires ControlOk(s') && LoopOk(s')
    requires ListenerOpen(s') == (ListenerOpen(s) || s.control.Candidate?) && !s'.control.Candidate?
    requires ListenerOpen(s) ==> s'.listen == s.listen
    requires s.control.Candidate? ==> s'.listen == s.control.h
    requires s'.listenSock == s.listenSock || s.control.Candidate?
    requires Serving(s') ==> Serving(s) || s.control.Candidate?
    requires s.control.Candidate? ==> forall i :: 0 <= i < |s.sessions| ==> s.sessions[i].sock != s'.listenSock
    ensures Inv(cfg, s')
  {
    forall i | 0 <= i < |s.sessions| ensures PlaceOf(s', i) == PlaceOf(s, i) {
      assert Listed(s', i) <==> Listed(s, i);
    }
    forall h | h in s'.k.fds ensures Held(s', h) {
      assert Held(s, h);
      if i :| 0 <= i < |s.sessions| && s.sessions[i].fd == h && HoldsSocket(PlaceOf(s, i)) {
        assert s'.sessions[i].fd == h && HoldsSocket(PlaceOf(s', i));
      }
    }
    assert TableOk(s');
  }

  lemma ControlOpens(cfg: Config, s: State, h: int, left: nat)
    requires Inv(cfg, s) && s.control.Trying? && Free(s.k, h)
    ensures Inv(cfg, s.(k := Open(s.k, h), control := Candidate(h, s.k.next, left)))
  {
    var s' := s.(k := Open(s.k, h), control := Candidate(h, s.k.next, left));
    OpenKeepsValid(s.k, h);
    AllGone(s);
    AllGone(s');
    forall i | 0 <= i < |s.sessions| ensures SessionOk(s'.sessions[i], PlaceOf(s', i), s'.k) {
      OpenKeepsSession(s.sessions[i], Gone, s.k, h);
    }
    forall g | g in s'.k.fds ensures Held(s', g) {
    }
    assert TableOk(s') && LoopOk(s') && ControlOk(s');
  }

  lemma ControlRejects(cfg: Config, s: State)
    requires Inv(cfg, s) && s.control.Candidate?
    ensures Inv(cfg, s.(k := Sockets.Close(s.k, s.control.h), control := Trying(s.control.left)))
  {
    var s' := s.(k := Sockets.Close(s.k, s.control.h), control := Trying(s.control.left));
    CloseKeepsValid(s.k, s.control.h);
    AllGone(s);
    AllGone(s');
    forall g | g in s'.k.fds ensures Held(s', g) {
      assert Held(s, g);
    }
    assert TableOk(s') && LoopOk(s') && ControlOk(s');
  }

  lemma ControlAccepts(cfg: Config, s: State)
    requires Inv(cfg, s) && s.control.Candidate?
    ensures Inv(cfg, s.(listen := s.control.h, listenSock := s.control.x, running := true, loop := Init,
                        resolver := Refresher.Resolver.Top, control := Up))
  {
    var s' := s.(listen := s.control.h, listenSock := s.control.x, running := true, loop := Init,
                 resolver := Refresher.Resolver.Top, control := Up);
    AllGone(s);
    forall i | 0 <= i < |s.sessions| ensures s.sessions[i].sock != s.control.x && !Listed(s', i) {
      assert SessionOk(s.sessions[i], Gone, s.k);
      assert IsOpen(s.k, s.control.x);
    }
    ControlMoves(cfg, s, s');
  }

  /** Nobody but the listener used the number that is closed. */
  lemma ClosedListenerHolds(cfg: Config, s: State, s': State)
    requires Inv(cfg, s) && s.control.CloseListen?
    requires s' == s.(k := Sockets.Close(s.k, s.listen), control := ForgetListen)
    ensures forall h :: h in s'.k.fds ==> Held(s', h)
  {
    SamePlaces(s, s');
    forall h | h in s'.k.fds ensures Held(s', h) {
      assert Held(s, h);
      if i :| 0 <= i < |s.sessions| && s.sessions[i].fd == h && HoldsSocket(PlaceOf(s, i)) {
        assert s'.sessions[i].fd == h && HoldsSocket(PlaceOf(s', i));
      }
    }
  }

  lemma ClosedListenerSpares(cfg: Config, s: State, s': State)
    requires Inv(cfg, s) && s.control.CloseListen?
    requires s' == s.(k := Sockets.Close(s.k, s.listen), control := ForgetListen)
    ensures TableOk(s')
  {
    CloseKeepsValid(s.k, s.listen);
    SamePlaces(s, s');
    forall i | 0 <= i < |s.sessions| ensures SessionOk(s'.sessions[i], PlaceOf(s', i), s'.k) {
      assert SessionOk(s.sessions[i], PlaceOf(s, i), s.k);
      assert s.sessions[i].sock != s.listenSock;
    }
  }

  lemma ControlClosesListener(cfg: Config, s: State)
    requires Inv(cfg, s) && s.control.CloseListen?
    ensures Inv(cfg, s.(k := Sockets.Close(s.k, s.listen), control := ForgetListen))
  {
    var s' := s.(k := Sockets.Close(s.k, s.listen), control := ForgetListen);
    CloseKeepsValid(s.k, s.listen);
    ClosedListenerHolds(cfg, s, s');
    ClosedListenerSpares(cfg, s, s');
    ClosedListenerKeepsRest(cfg, s, s');
  }

  lemma ClosedListenerKeepsRest(cfg: Config, s: State, s': State)
    requires Inv(cfg, s) && s.control.CloseListen?
    requires s' == s.(k := Sockets.Close(s.k, s.listen), control := ForgetListen)
    ensures LoopOk(s') && ControlOk(s')
  {
    CloseKeepsValid(s.k, s.listen);
    SamePlaces(s, s');
  }

  lemma NothingToSelect(cfg: Config, s: State, now: int, order: seq<nat>)
    requires IsSelection(cfg, s, true, now, order) && s.table == map[]
    ensures order == [] && Selected(s, now, order) == s.(clock := now)
  {
    assert forall i: nat :: i in order ==> Listed(s, i);
    if order != [] {
      var i := Ranks.AMember(order);
    }
    assert MarkAll(s.sessions, order) == s.sessions;
  }

  lemma ControlSelectFrame(cfg: Config, s: State, a: Act)
    requires s.control.SelectAll? && ControlNext(cfg, s, a).Some?
    ensures a.Chosen? && Tick(s, a.now) && IsSelection(cfg, s, true, a.now, a.order)
    ensures ControlNext(cfg, s, a).value == Selected(s, a.now, a.order).(control := SweepAll(a.order, Shutdown))
  {
  }

  lemma ControlSelects(cfg: Config, s: State, now: int)
    requires Inv(cfg, s) && s.control.SelectAll? && Tick(s, now)
    ensures Inv(cfg, s.(clock := now, control := SweepAll([], Shutdown)))
  {
    var mid := s.(control := SweepAll([], Shutdown));
    ControlMoves(cfg, s, mid);
    var s' := mid.(clock := now);
    SamePlaces(mid, s');
    forall h | h in s'.k.fds ensures Held(s', h) { StillHeld(mid, s', h); }
    assert TableOk(s') && LoopOk(s') && ControlOk(s');
  }

  lemma ControlFrame(cfg: Config, s: State, a: Act)
    requires ControlOk(s) && LoopOk(s) && Valid(s.k) && ControlNext(cfg, s, a).Some?
    requires !s.control.Candidate? && !s.control.CloseListen? && !s.control.SelectAll?
    requires s.control.Trying? ==> !a.Opened?
    ensures var s' := ControlNext(cfg, s, a).value;
      && s'.k == s.k && s'.table == s.table && s'.sessions == s.sessions && s'.clock == s.clock
      && (s'.loop == s.loop || (s.loop.Exited? && s'.loop.Off?))
      && ListenerOpen(s') == ListenerOpen(s) && !s'.control.Candidate?
      && (ListenerOpen(s) ==> s'.listen == s.listen) && s'.listenSock == s.listenSock
      && (Serving(s') ==> Serving(s))
      && ControlOk(s') && LoopOk(s')
  {
  }

  // The steps of Start and Stop that make or close a socket, or hand one over.

  lemma TryingKeepsInv(cfg: Config, s: State, a: Act)
    requires Inv(cfg, s) && ControlNext(cfg, s, a).Some? && s.control.Trying? && a.Opened?
    ensures Inv(cfg, ControlNext(cfg, s, a).value)
  {
    ControlOpens(cfg, s, a.h, s.control.left - 1);
  }

  lemma CloseListenKeepsInv(cfg: Config, s: State, a: Act)
    requires Inv(cfg, s) && ControlNext(cfg, s, a).Some? && s.control.CloseListen?
    ensures Inv(cfg, ControlNext(cfg, s, a).value)
  {
    ControlClosesListener(cfg, s);
  }

  lemma CandidateKeepsInv(cfg: Config, s: State, a: Act)
    requires Inv(cfg, s) && ControlNext(cfg, s, a).Some? && s.control.Candidate?
    ensures Inv(cfg, ControlNext(cfg, s, a).value)
  {
    if a.Nothing? { ControlRejects(cfg, s); } else { ControlAccepts(cfg, s); }
  }

  lemma ControlKeepsInv(cfg: Config, s: State, a: Act)
    requires Inv(cfg, s) && ControlNext(cfg, s, a).Some?
    ensures Inv(cfg, ControlNext(cfg, s, a).value)
  {
    if s.control.Trying? && a.Opened? {
      TryingKeepsInv(cfg, s, a);
    } else if s.control.Candidate? {
      CandidateKeepsInv(cfg, s, a);
    } else if s.control.CloseListen? {
      CloseListenKeepsInv(cfg, s, a);
    } else if s.control.SelectAll? {
      ControlSelectFrame(cfg, s, a);
      NothingToSelect(cfg, s, a.now, a.order);
      ControlSelects(cfg, s, a.now);
    } else {
      ControlFrame(cfg, s, a);
      ControlMoves(cfg, s, ControlNext(cfg, s, a).value);
    }
  }

  lemma StepKeepsInv(cfg: Config, s: State, step: Step)
    requires Inv(cfg, s) && Next(cfg, s, step).Some?
    ensures Inv(cfg, Next(cfg, s, step).value)
  {
    match step {
      case Control(a) => ControlKeepsInv(cfg, s, a);
      case Loop(a) => LoopKeepsInv(cfg, s, a);
      case Resolver(a) => ResolverKeepsInv(cfg, s, a);
      case Receiver(i, a) => ReceiverKeepsInv(cfg, s, i, a);
    }
  }

  lemma {:induction false} RunKeepsInv(cfg: Config, s: State, run: seq<Step>)
    requires Inv(cfg, s) && After(cfg, s, run).Some?
    ensures Inv(cfg, After(cfg, s, run).value)
    decreases run
  {
    if run != [] {
      StepKeepsInv(cfg, s, run[0]);
      RunKeepsInv(cfg, Next(cfg, s, run[0]).value, run[1..]);
    }
  }
}
