/**
 Sessions over whole runs of the UDP forwarder: which session a client's datagrams use, and which
 list a session's target was chosen from.
 */
module UdpBinding {
  import opened Endpoints
  import opened Sockets
  import opened UdpEviction
  import opened UdpHistory
  import opened UdpMachine
  import opened UdpSafety
  import opened UdpTheorems
  import UdpOrder

  /** Client `c` is in the table at every moment of the run. */
  ghost predicate Unbroken(cfg: Config, s: State, run: seq<Step>, c: string)
    decreases |run|
  {
    && c in s.table
    && (run != [] ==> Next(cfg, s, run[0]).Some? && Unbroken(cfg, Next(cfg, s, run[0]).value, run[1..], c))
  }

  /** What was forwarded for client `c` after the first `n` datagrams left on kernel socket `sock`. */
  predicate AllOn(forwards: seq<Forward>, n: nat, c: string, sock: nat) {
    forall k :: n <= k < |forwards| && forwards[k].peer == c ==> forwards[k].sock == sock
  }

  lemma StepUsesBinding(cfg: Config, s: State, step: Step, c: string, i: nat)
    requires Reachable(cfg, s) && Next(cfg, s, step).Some? && Bound(s, c, i) && c in Next(cfg, s, step).value.table
    ensures var s' := Next(cfg, s, step).value;
      && Bound(s', c, i) && s'.sessions[i].sock == s.sessions[i].sock
      && s.forwards <= s'.forwards && AllOn(s'.forwards, |s.forwards|, c, s.sessions[i].sock)
  {
    var s' := Next(cfg, s, step).value;
    ReachableIsGood(cfg, s);
    BindingLasts(cfg, s, step, c, i);
    StepContinues(cfg, s, step);
    assert SameRecord(s.sessions[i], s'.sessions[i]);
    if step.Loop? {
      LoopUsesBinding(cfg, s, step.act, c, i);
    } else {
      UdpOrder.OthersKeepLoop(cfg, s, step);
    }
  }

  lemma LoopUsesBinding(cfg: Config, s: State, a: Act, c: string, i: nat)
    requires Inv(cfg, s) && LoopNext(cfg, s, a).Some? && Bound(s, c, i)
    ensures var s' := LoopNext(cfg, s, a).value;
      s.forwards <= s'.forwards && AllOn(s'.forwards, |s.forwards|, c, s.sessions[i].sock)
  {
    UdpOrder.LoopSends(cfg, s, a);
    if s.loop.Send? { SendsOnOwnSocket(cfg, s); }
  }

  lemma SendsOnOwnSocket(cfg: Config, s: State)
    requires Inv(cfg, s) && s.loop.Send?
    ensures Bound(s, s.loop.client, s.loop.i)
    ensures Lookup(s.k, s.sessions[s.loop.i].handle) == Some(s.sessions[s.loop.i].sock)
  {
    assert Listed(s, s.loop.i);
    assert SessionOk(s.sessions[s.loop.i], PlaceOf(s, s.loop.i), s.k);
  }

  /** Datagrams of one client with no eviction between them use the same session. */
  lemma {:induction false} DatagramsKeepTheirSession(cfg: Config, s: State, run: seq<Step>, c: string, i: nat)
    requires Reachable(cfg, s) && After(cfg, s, run).Some? && Bound(s, c, i) && Unbroken(cfg, s, run, c)
    ensures var t := After(cfg, s, run).value;
      && Bound(t, c, i) && t.sessions[i].sock == s.sessions[i].sock
      && s.forwards <= t.forwards && AllOn(t.forwards, |s.forwards|, c, s.sessions[i].sock)
    decreases |run|
  {
    if run != [] {
      var s1 := Next(cfg, s, run[0]).value;
      StepUsesBinding(cfg, s, run[0], c, i);
      assert After(cfg, s, [run[0]]) == Some(s1) by { assert After(cfg, s1, []) == Some(s1); }
      RunIsReachable(cfg, s, [run[0]]);
      DatagramsKeepTheirSession(cfg, s1, run[1..], c, i);
    }
  }

  // The list a target was chosen from.

  predicate Choosing(l: Loop, c: string, snap: seq<Endpoint>) {
    (l.Opening? || l.Insert?) && l.client == c && l.snap == snap
  }

  /** After `n` steps of the run, the loop is about to copy the cache, which is `snap`, for client `c`. */
  ghost predicate CopyingAt(cfg: Config, run: seq<Step>, n: nat, c: string, snap: seq<Endpoint>) {
    && n <= |run| && After(cfg, INITIAL, run[..n]).Some?
    && var s := After(cfg, INITIAL, run[..n]).value; s.loop.Snapshot? && s.loop.client == c && s.cache == snap
  }

  ghost predicate ChoosingAt(cfg: Config, run: seq<Step>, n: nat, c: string, snap: seq<Endpoint>) {
    n <= |run| && After(cfg, INITIAL, run[..n]).Some? && Choosing(After(cfg, INITIAL, run[..n]).value.loop, c, snap)
  }

  ghost predicate CountAt(cfg: Config, run: seq<Step>, n: nat, sessions: nat) {
    n <= |run| && After(cfg, INITIAL, run[..n]).Some? && |After(cfg, INITIAL, run[..n]).value.sessions| == sessions
  }

  /** The cache was copied for client `c` by step `n`, and since then, until the end of the run, the loop
      has been making a session from this copy. */
  ghost predicate CopiedAt(cfg: Config, run: seq<Step>, n: nat, c: string, snap: seq<Endpoint>) {
    && n < |run| && CopyingAt(cfg, run, n, c, snap)
    && forall k :: n < k <= |run| ==> ChoosingAt(cfg, run, k, c, snap)
  }

  lemma LoopChooses(cfg: Config, s: State, a: Act, c: string, snap: seq<Endpoint>)
    requires LoopNext(cfg, s, a).Some? && Choosing(LoopNext(cfg, s, a).value.loop, c, snap)
    ensures Choosing(s.loop, c, snap) || (s.loop.Snapshot? && s.loop.client == c && s.cache == snap)
  {
    LoopCacheFrame(cfg, s, a);
    LoopServes(cfg, s, a);
  }

  /** On the way to a session the loop serves one client. */
  lemma LoopServes(cfg: Config, s: State, a: Act)
    requires LoopNext(cfg, s, a).Some?
    ensures var l, l' := s.loop, LoopNext(cfg, s, a).value.loop;
      && (l'.Opening? ==> l.Snapshot? && l'.client == l.client)
      && (l'.Insert? ==> l.Opening? && l'.client == l.client)
  {
    if s.loop.Sweep? { SweepFrame(cfg, s, a); }
  }

  lemma StepChooses(cfg: Config, s: State, step: Step, c: string, snap: seq<Endpoint>)
    requires Inv(cfg, s) && Next(cfg, s, step).Some? && Choosing(Next(cfg, s, step).value.loop, c, snap)
    ensures Choosing(s.loop, c, snap) || (s.loop.Snapshot? && s.loop.client == c && s.cache == snap)
  {
    match step {
      case Receiver(i, a) => ReceiverFrame(s, i, a);
      case Resolver(a) => ResolverFrame(cfg, s, a);
      case Control(a) => UdpHistory.ControlFrame(cfg, s, a);
      case Loop(a) => LoopChooses(cfg, s, a, c, snap);
    }
  }

  lemma CopyStays(cfg: Config, most: seq<Step>, last: Step, n: nat, c: string, snap: seq<Endpoint>)
    requires After(cfg, INITIAL, most + [last]).Some?
    requires Choosing(After(cfg, INITIAL, most + [last]).value.loop, c, snap)
    requires CopiedAt(cfg, most, n, c, snap)
      || (n == |most| && CopyingAt(cfg, most, n, c, snap))
    ensures CopiedAt(cfg, most + [last], n, c, snap)
  {
    assert (most + [last])[..n] == most[..n];
    forall k | n < k <= |most| + 1 ensures ChoosingAt(cfg, most + [last], k, c, snap) {
      if k <= |most| {
        assert (most + [last])[..k] == most[..k];
        assert ChoosingAt(cfg, most, k, c, snap);
      } else {
        assert (most + [last])[..k] == most + [last];
      }
    }
  }

  lemma {:induction false} ChoosingWasCopied(cfg: Config, run: seq<Step>, c: string, snap: seq<Endpoint>)
    requires After(cfg, INITIAL, run).Some? && Choosing(After(cfg, INITIAL, run).value.loop, c, snap)
    ensures exists n: nat :: CopiedAt(cfg, run, n, c, snap)
    decreases |run|
  {
    var most, last := run[..|run| - 1], run[|run| - 1];
    MostAndLast(run);
    RunSplits(cfg, INITIAL, most, last);
    var s := After(cfg, INITIAL, most).value;
    ReachableIsGood(cfg, s);
    StepChooses(cfg, s, last, c, snap);
    if Choosing(s.loop, c, snap) {
      ChoosingWasCopied(cfg, most, c, snap);
      var n: nat :| CopiedAt(cfg, most, n, c, snap);
      CopyStays(cfg, most, last, n, c, snap);
    } else {
      assert most[..|most|] == most;
      CopyStays(cfg, most, last, |most|, c, snap);
    }
  }

  /** Session `i`, which is now `z`, was made by step `m` of the run from the list copied at step `n`. */
  ghost predicate MadeFrom(cfg: Config, run: seq<Step>, i: nat, z: Session, n: nat, m: nat) {
    && n < m < |run| && CopiedAt(cfg, run[..m], n, z.client, z.snapshot)
    && CountAt(cfg, run, m, i) && CountAt(cfg, run, m + 1, i + 1)
  }

  lemma LoopMakes(cfg: Config, s: State, a: Act)
    requires LoopNext(cfg, s, a).Some? && |LoopNext(cfg, s, a).value.sessions| > |s.sessions|
    ensures var s', n := LoopNext(cfg, s, a).value, |s.sessions|;
      |s'.sessions| == n + 1 && Choosing(s.loop, s'.sessions[n].client, s'.sessions[n].snapshot)
  {
    if s.loop.Sweep? { SweepFrame(cfg, s, a); }
  }

  lemma StepMakes(cfg: Config, s: State, step: Step)
    requires Inv(cfg, s) && Next(cfg, s, step).Some? && |Next(cfg, s, step).value.sessions| > |s.sessions|
    ensures var s', n := Next(cfg, s, step).value, |s.sessions|;
      |s'.sessions| == n + 1 && Choosing(s.loop, s'.sessions[n].client, s'.sessions[n].snapshot)
  {
    match step {
      case Receiver(i, a) => ReceiverFrame(s, i, a);
      case Resolver(a) => ResolverFrame(cfg, s, a);
      case Control(a) => UdpHistory.ControlFrame(cfg, s, a);
      case Loop(a) => LoopMakes(cfg, s, a);
    }
  }

  lemma MakingStays(cfg: Config, most: seq<Step>, last: Step, i: nat, z: Session, n: nat, m: nat)
    requires MadeFrom(cfg, most, i, z, n, m)
    ensures MadeFrom(cfg, most + [last], i, z, n, m)
  {
    assert (most + [last])[..m] == most[..m] && (most + [last])[..m + 1] == most[..m + 1];
  }

  lemma SameOrigin(cfg: Config, run: seq<Step>, i: nat, z: Session, z': Session, n: nat, m: nat)
    requires MadeFrom(cfg, run, i, z, n, m) && SameRecord(z, z')
    ensures MadeFrom(cfg, run, i, z', n, m)
  {
  }

  /** A session that the last step of the run makes. */
  lemma NewestWasMade(cfg: Config, most: seq<Step>, last: Step) returns (n: nat)
    requires After(cfg, INITIAL, most).Some? && Next(cfg, After(cfg, INITIAL, most).value, last).Some?
    requires var s := After(cfg, INITIAL, most).value; |Next(cfg, s, last).value.sessions| > |s.sessions|
    ensures var s := After(cfg, INITIAL, most).value; var s', i := Next(cfg, s, last).value, |s.sessions|;
      |s'.sessions| == i + 1 && MadeFrom(cfg, most + [last], i, s'.sessions[i], n, |most|)
  {
    var s := After(cfg, INITIAL, most).value;
    var z := Next(cfg, s, last).value.sessions[|s.sessions|];
    ReachableIsGood(cfg, s);
    StepMakes(cfg, s, last);
    ChoosingWasCopied(cfg, most, z.client, z.snapshot);
    n :| CopiedAt(cfg, most, n, z.client, z.snapshot);
    RunSplits(cfg, INITIAL, most, last);
    assert (most + [last])[..|most|] == most && (most + [last])[..|most| + 1] == most + [last];
  }

  lemma {:induction false} SessionWasMade(cfg: Config, run: seq<Step>, i: nat) returns (n: nat, m: nat)
    requires After(cfg, INITIAL, run).Some? && i < |After(cfg, INITIAL, run).value.sessions|
    ensures MadeFrom(cfg, run, i, After(cfg, INITIAL, run).value.sessions[i], n, m)
    decreases |run|
  {
    var most, last := run[..|run| - 1], run[|run| - 1];
    MostAndLast(run);
    RunSplits(cfg, INITIAL, most, last);
    var s := After(cfg, INITIAL, most).value;
    if i < |s.sessions| {
      n, m := SessionWasMade(cfg, most, i);
      ReachableIsGood(cfg, s);
      StepContinues(cfg, s, last);
      MakingStays(cfg, most, last, i, s.sessions[i], n, m);
      SameOrigin(cfg, run, i, s.sessions[i], After(cfg, INITIAL, run).value.sessions[i], n, m);
    } else {
      n := NewestWasMade(cfg, most, last);
      m := |most|;
    }
  }

  /** A session's target is chosen from the cache as it was at the session's own snapshot step, after the
      client was looked up and not found: from then until the step that made the session the loop did
      nothing but make it. */
  lemma SnapshotIsCurrent(cfg: Config, run: seq<Step>, i: nat)
    requires After(cfg, INITIAL, run).Some? && i < |After(cfg, INITIAL, run).value.sessions|
    ensures var z := After(cfg, INITIAL, run).value.sessions[i];
      && FirstMade(z.snapshot, z.made, z.target)
      && exists n: nat, m: nat :: MadeFrom(cfg, run, i, z, n, m)
  {
    ReachableIsGood(cfg, After(cfg, INITIAL, run).value);
    assert Pinned(After(cfg, INITIAL, run).value.sessions[i]);
    var n, m := SessionWasMade(cfg, run, i);
  }
}
