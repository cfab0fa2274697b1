/**
 Sockets are shut down before they are closed (src/net/forwarder.cpp:326-327, 708-709), so that a thread inside
 a receive call on them is woken, and never while they are in use.
 */
module UdpShutdown {
  import opened Sockets
  import opened UdpMachine
  import opened UdpSafety
  import opened UdpTheorems

  /** The sweep that takes session `i` has got past the shutdown of its socket. */
  predicate PastShutdown(s: State, i: nat)
    requires i < |s.sessions|
  {
    && !Listed(s, i)
    && (s.loop.Sweep? && i in s.loop.list ==> i == s.loop.list[0] && !s.loop.stage.Shutdown?)
  }

  predicate SessionsShut(s: State) {
    forall i :: 0 <= i < |s.sessions| ==> (s.sessions[i].sock in s.shut <==> PastShutdown(s, i))
  }

  predicate RestShut(s: State) {
    && (forall x :: x in s.shut ==> x < s.k.next)
    && (Serving(s) ==> (s.listenSock in s.shut <==> !s.control.Up? && !s.control.ShutListen?))
    && (s.loop.Insert? ==> s.loop.x !in s.shut)
    && (s.control.Candidate? ==> s.control.x !in s.shut)
  }

  predicate ShutOk(s: State) {
    SessionsShut(s) && RestShut(s)
  }

  // The loop.

  lemma SamePast(s: State, s': State)
    requires SessionsShut(s) && s'.shut == s.shut && s'.table == s.table && SameIdentities(s, s')
    requires s'.loop == s.loop || (!s.loop.Sweep? && !s'.loop.Sweep?)
    ensures SessionsShut(s')
  {
    forall i | 0 <= i < |s.sessions| ensures PastShutdown(s', i) <==> PastShutdown(s, i) {
      assert Listed(s', i) <==> Listed(s, i);
    }
  }

  lemma SimpleKeepsRest(cfg: Config, s: State, a: Act)
    requires RestShut(s) && LoopNext(cfg, s, a).Some? && Simple(s)
    ensures RestShut(LoopNext(cfg, s, a).value) && LoopNext(cfg, s, a).value.shut == s.shut
  {
  }

  lemma ServingKeepsRest(cfg: Config, s: State, a: Act)
    requires RestShut(s) && LoopNext(cfg, s, a).Some? && !Simple(s) && !s.loop.Select? && !s.loop.Sweep?
    ensures RestShut(LoopNext(cfg, s, a).value) && LoopNext(cfg, s, a).value.shut == s.shut
  {
  }

  lemma PlainKeepsShut(cfg: Config, s: State, a: Act)
    requires LoopNext(cfg, s, a).Some? && SessionsShut(s) && (Simple(s) || s.loop.Opening?)
    requires LoopNext(cfg, s, a).value.shut == s.shut
    ensures SessionsShut(LoopNext(cfg, s, a).value)
  {
    var s' := LoopNext(cfg, s, a).value;
    if Simple(s) { SimpleFrame(cfg, s, a); } else { OpeningFrame(cfg, s, a); }
    assert SameIdentities(s, s');
    SamePast(s, s');
  }

  lemma RecordKeepsShut(cfg: Config, s: State, a: Act)
    requires LoopNext(cfg, s, a).Some? && SessionsShut(s) && (s.loop.Start? || s.loop.Touch? || s.loop.Send?)
    requires LoopNext(cfg, s, a).value.shut == s.shut
    ensures SessionsShut(LoopNext(cfg, s, a).value)
  {
    var s' := LoopNext(cfg, s, a).value;
    if s.loop.Start? { StartFrame(cfg, s, a); } else { TouchOrSendFrame(cfg, s, a); }
    assert SameIdentities(s, s');
    SamePast(s, s');
  }

  lemma InsertKeepsShut(cfg: Config, s: State, a: Act)
    requires Inv(cfg, s) && s.loop.Insert? && LoopNext(cfg, s, a).Some? && ShutOk(s)
    ensures SessionsShut(LoopNext(cfg, s, a).value)
  {
    InsertFrame(cfg, s, a);
    var s', n := Inserted(s, a.now), |s.sessions|;
    forall i | 0 <= i < n ensures PastShutdown(s', i) <==> PastShutdown(s, i) {
      assert Listed(s', i) <==> Listed(s, i);
    }
    assert Listed(s', n);
  }

  lemma SelectKeepsShut(cfg: Config, s: State, a: Act)
    requires Inv(cfg, s) && s.loop.Select? && LoopNext(cfg, s, a).Some? && ShutOk(s)
    ensures ShutOk(LoopNext(cfg, s, a).value)
  {
    SelectFrame(cfg, s, a);
    var s' := LoopNext(cfg, s, a).value;
    forall i | 0 <= i < |s.sessions|
      ensures PastShutdown(s', i) <==> PastShutdown(s, i)
      ensures s'.sessions[i].sock == s.sessions[i].sock
    {
      SelectedListed(cfg, s, s.loop.force, a.now, a.order, i);
    }
  }

  /** The action on the session at the head of the list; `x` is its socket. */
  lemma SweepMovesHead(s: State, s': State)
    requires SessionsShut(s) && s.loop.Sweep? && s.loop.list != [] && SameIdentities(s, s') && s'.table == s.table
    requires forall a, b :: 0 <= a < b < |s.loop.list| ==> s.loop.list[a] != s.loop.list[b]
    requires s'.loop.Sweep?
    requires forall i, j :: 0 <= i < j < |s.sessions| ==> s.sessions[i].sock != s.sessions[j].sock
    requires s.loop.list[0] < |s.sessions| && !Listed(s, s.loop.list[0])
    requires if s.loop.stage.Join? then s'.loop.list == s.loop.list[1..] && s'.loop.stage.Shutdown?
             else s'.loop.list == s.loop.list && !s'.loop.stage.Shutdown?
    requires s'.shut == if s.loop.stage.Shutdown? then s.shut + {s.sessions[s.loop.list[0]].sock} else s.shut
    ensures SessionsShut(s')
  {
    var list := s.loop.list;
    forall i | 0 <= i < |s.sessions|
      ensures s'.sessions[i].sock in s'.shut <==> PastShutdown(s', i)
    {
      assert Listed(s', i) <==> Listed(s, i);
      assert s'.sessions[i].sock == s.sessions[i].sock;
      if i != list[0] {
        assert s.sessions[i].sock != s.sessions[list[0]].sock;
        assert i in list <==> i in list[1..];
        OthersWait(list, i);
      } else {
        assert list[0] !in list[1..];
      }
    }
  }

  lemma OthersWait(list: seq<nat>, i: nat)
    requires list != [] && i != list[0]
    ensures i in list <==> i in list[1..]
  {
  }

  lemma SweepKeepsRest(s: State, s': State)
    requires RestShut(s) && s.loop.Sweep? && !s'.loop.Insert? && s'.k.next == s.k.next
    requires s'.control == s.control && s'.listenSock == s.listenSock
    requires s'.shut == s.shut
      || exists i :: 0 <= i < |s.sessions| && s'.shut == s.shut + {s.sessions[i].sock} && s.sessions[i].sock < s.k.next
                  && (Serving(s) ==> s.sessions[i].sock != s.listenSock) && !s.control.Candidate?
    ensures RestShut(s')
  {
  }

  lemma SweepKeepsShut(cfg: Config, s: State, a: Act)
    requires Inv(cfg, s) && s.loop.Sweep? && LoopNext(cfg, s, a).Some? && ShutOk(s)
    ensures ShutOk(LoopNext(cfg, s, a).value)
  {
    var s' := LoopNext(cfg, s, a).value;
    SweepFrame(cfg, s, a);
    if s.loop.list == [] {
      SweptKeepsShut(s, s');
    } else {
      var n := s.loop.list[0];
      HeadIsStarted(cfg, s);
      CloseStepFrame(s);
      assert n in s.loop.list;
      HeadIsReached(cfg, s);
      assert SameIdentities(s, s');
      SweepMovesHead(s, s');
      SweepKeepsRest(s, s');
    }
  }

  lemma SweptKeepsShut(s: State, s': State)
    requires ShutOk(s) && s.loop.Sweep? && s.loop.list == []
    requires s' == s.(loop := s'.loop) && !s'.loop.Sweep? && !s'.loop.Insert?
    ensures ShutOk(s')
  {
    forall i | 0 <= i < |s.sessions| ensures PastShutdown(s', i) <==> PastShutdown(s, i) {
      assert Listed(s', i) <==> Listed(s, i);
    }
  }

  /** The shutdown call reaches the socket of the session that is closed. */
  lemma HeadIsReached(cfg: Config, s: State)
    requires Inv(cfg, s) && s.loop.Sweep? && s.loop.list != []
    ensures var n := s.loop.list[0];
      && n < |s.sessions| && !Listed(s, n) && s.sessions[n].sock < s.k.next
      && (Serving(s) ==> s.sessions[n].sock != s.listenSock) && !s.control.Candidate?
      && (s.loop.stage.Shutdown? ==> Reached(s.k, s.sessions[n].handle) == {s.sessions[n].sock})
  {
    var n := s.loop.list[0];
    assert n in s.loop.list;
    assert SessionOk(s.sessions[n], PlaceOf(s, n), s.k);
  }

  lemma LoopKeepsShut(cfg: Config, s: State, a: Act)
    requires Inv(cfg, s) && LoopNext(cfg, s, a).Some? && ShutOk(s)
    ensures ShutOk(LoopNext(cfg, s, a).value)
  {
    if s.loop.Select? {
      SelectKeepsShut(cfg, s, a);
    } else if s.loop.Sweep? {
      SweepKeepsShut(cfg, s, a);
    } else {
      if Simple(s) { SimpleKeepsRest(cfg, s, a); } else { ServingKeepsRest(cfg, s, a); }
      if s.loop.Insert? {
        InsertKeepsShut(cfg, s, a);
      } else if s.loop.Start? || s.loop.Touch? || s.loop.Send? {
        RecordKeepsShut(cfg, s, a);
      } else {
        PlainKeepsShut(cfg, s, a);
      }
    }
  }

  // The other threads.

  lemma ListenerIsShut(s: State, s': State)
    requires SessionsShut(s) && TableOk(s) && Serving(s)
    requires s'.shut == s.shut + {s.listenSock} && s'.table == s.table && s'.sessions == s.sessions && s'.loop == s.loop
    ensures SessionsShut(s')
  {
    forall i | 0 <= i < |s.sessions| ensures PastShutdown(s', i) <==> PastShutdown(s, i) {
      assert Listed(s', i) <==> Listed(s, i);
    }
  }

  lemma ControlFrame(cfg: Config, s: State, a: Act)
    requires Inv(cfg, s) && RestShut(s) && ControlNext(cfg, s, a).Some? && !s.control.SelectAll?
    ensures var s' := ControlNext(cfg, s, a).value;
      && RestShut(s')
      && s'.shut == (if s.control.ShutListen? then s.shut + {s.listenSock} else s.shut)
      && (s'.loop == s.loop || (!s.loop.Sweep? && !s'.loop.Sweep?))
      && (s.control.ShutListen? ==> s'.loop == s.loop)
  {
  }

  lemma ControlKeepsShut(cfg: Config, s: State, a: Act)
    requires Inv(cfg, s) && ShutOk(s) && ControlNext(cfg, s, a).Some?
    ensures ShutOk(ControlNext(cfg, s, a).value)
  {
    var s' := ControlNext(cfg, s, a).value;
    UdpHistory.ControlFrame(cfg, s, a);
    assert SameIdentities(s, s');
    if s.control.SelectAll? {
      ControlSelectFrame(cfg, s, a);
      SamePast(s, s');
    } else {
      ControlFrame(cfg, s, a);
      if s.control.ShutListen? { ListenerIsShut(s, s'); } else { SamePast(s, s'); }
    }
  }

  lemma ReceiverKeepsShut(s: State, i: nat, a: Act)
    requires ReceiverNext(s, i, a).Some?
    ensures ReceiverNext(s, i, a).value.shut == s.shut
  {
  }

  lemma ResolverKeepsShut(cfg: Config, s: State, a: Act)
    requires ResolverNext(cfg, s, a).Some?
    ensures ResolverNext(cfg, s, a).value.shut == s.shut
  {
  }

  lemma StepKeepsShut(cfg: Config, s: State, step: Step)
    requires Inv(cfg, s) && ShutOk(s) && Next(cfg, s, step).Some?
    ensures ShutOk(Next(cfg, s, step).value)
  {
    var s' := Next(cfg, s, step).value;
    match step {
      case Loop(a) => LoopKeepsShut(cfg, s, a);
      case Control(a) => ControlKeepsShut(cfg, s, a);
      case Receiver(i, a) =>
        ReceiverFrame(s, i, a);
        ReceiverKeepsShut(s, i, a);
        assert SameIdentities(s, s');
        SamePast(s, s');
      case Resolver(a) =>
        ResolverFrame(cfg, s, a);
        ResolverKeepsShut(cfg, s, a);
        assert SameIdentities(s, s');
        SamePast(s, s');
    }
  }

  lemma {:induction false} RunKeepsShut(cfg: Config, s: State, run: seq<Step>)
    requires Inv(cfg, s) && ShutOk(s) && After(cfg, s, run).Some?
    ensures ShutOk(After(cfg, s, run).value)
    decreases run
  {
    if run != [] {
      StepKeepsInv(cfg, s, run[0]);
      StepKeepsShut(cfg, s, run[0]);
      RunKeepsShut(cfg, Next(cfg, s, run[0]).value, run[1..]);
    }
  }

  /** No socket of a session, and no listener, is closed that was not shut down before; and none is shut down while
      its session is in the table, or while the forwarder is up. */
  lemma ShutBeforeClosed(cfg: Config, s: State)
    requires Reachable(cfg, s)
    ensures forall i :: 0 <= i < |s.sessions| && !IsOpen(s.k, s.sessions[i].sock) ==> s.sessions[i].sock in s.shut
    ensures forall i :: 0 <= i < |s.sessions| && Listed(s, i) ==> s.sessions[i].sock !in s.shut
    ensures Serving(s) && !IsOpen(s.k, s.listenSock) ==> s.listenSock in s.shut
    ensures s.running ==> s.listenSock !in s.shut
  {
    var run :| After(cfg, INITIAL, run) == Some(s);
    InitialInv(cfg);
    RunKeepsShut(cfg, INITIAL, run);
    ReachableIsGood(cfg, s);
    forall i | 0 <= i < |s.sessions| && !IsOpen(s.k, s.sessions[i].sock) ensures PastShutdown(s, i) {
      assert SessionOk(s.sessions[i], PlaceOf(s, i), s.k);
    }
  }
}
