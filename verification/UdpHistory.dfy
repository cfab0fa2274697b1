/** The histories of a UDP forwarder: which datagrams were passed on, and how targets were chosen. */
module UdpHistory {
  import opened Sockets
  import opened Endpoints
  import opened TargetCache
  import opened UdpMachine
  import opened UdpSafety

  // Histories.

  function Sum(ns: seq<nat>): nat {
    if ns == [] then 0 else Sum(ns[..|ns| - 1]) + ns[|ns| - 1]
  }

  /** Sizes of the datagrams sent to the target on one kernel socket, and of the replies taken
      from it that were sent to the client. */
  function SentUp(log: seq<Forward>, sock: nat): seq<nat> {
    if log == [] then []
    else SentUp(log[..|log| - 1], sock) + if log[|log| - 1].sock == sock then [log[|log| - 1].sent] else []
  }

  function SentDown(log: seq<Reply>, sock: nat): seq<nat> {
    if log == [] then []
    else SentDown(log[..|log| - 1], sock) + if log[|log| - 1].sock == sock then [log[|log| - 1].sent] else []
  }

  predicate Tallies(t: Tally, sizes: seq<nat>) {
    t.packets == |sizes| % U64 && t.bytes == Sum(sizes) % U64
  }

  /** `target` is the first endpoint of the list for which a socket was made. */
  predicate FirstMade(snap: seq<Endpoint>, made: seq<bool>, target: Endpoint) {
    && |snap| == |made| && Pick(snap, made).Some?
    && target == snap[Pick(snap, made).value]
  }

  predicate Pinned(z: Session) {
    FirstMade(z.snapshot, z.made, z.target)
  }

  /** `es` was the cached target list at some moment of the run. */
  ghost predicate WasCached(cfg: Config, s: State, es: seq<Endpoint>) {
    exists n: nat :: n <= |s.resolutions| && es == LastGood(cfg.preference, s.resolutions[..n])
  }

  ghost predicate OwnReply(s: State, r: Reply) {
    exists i :: 0 <= i < |s.sessions| && s.sessions[i].sock == r.sock && s.sessions[i].client == r.peer
  }

  ghost predicate OwnForward(s: State, f: Forward) {
    exists i :: 0 <= i < |s.sessions| && s.sessions[i].sock == f.sock && s.sessions[i].client == f.peer
             && s.sessions[i].target == f.target
  }

  ghost predicate History(cfg: Config, s: State) {
    && (forall r :: r in s.replies ==> OwnReply(s, r))
    && (forall f :: f in s.forwards ==> OwnForward(s, f))
    && (forall i :: 0 <= i < |s.sessions| ==>
          && Tallies(s.sessions[i].up, SentUp(s.forwards, s.sessions[i].sock))
          && Tallies(s.sessions[i].down, SentDown(s.replies, s.sessions[i].sock)))
  }

  ghost predicate Cached(cfg: Config, s: State) {
    && s.cache == LastGood(cfg.preference, s.resolutions)
    && (!s.control.Stopped? ==> s.cache != [])
    && (s.loop.Opening? || s.loop.Insert? ==> WasCached(cfg, s, s.loop.snap) && s.loop.snap != [])
    && (s.loop.Insert? ==> FirstMade(s.loop.snap, s.loop.made, s.loop.target))
    && (forall i :: 0 <= i < |s.sessions| ==> Pinned(s.sessions[i]) && WasCached(cfg, s, s.sessions[i].snapshot))
  }

  /** What a session is never changes, and no session is forgotten. */
  ghost predicate Continues(s: State, s': State) {
    && |s.sessions| <= |s'.sessions|
    && s.resolutions <= s'.resolutions
    && forall i :: 0 <= i < |s.sessions| ==> SameRecord(s.sessions[i], s'.sessions[i])
  }

  lemma SweepContinues(cfg: Config, s: State, a: Act)
    requires s.loop.Sweep? && LoopNext(cfg, s, a).Some?
    ensures Continues(s, LoopNext(cfg, s, a).value)
  {
    SweepFrame(cfg, s, a);
    if s.loop.list != [] { CloseStepContinues(s, s.loop.list, s.loop.stage); }
  }

  lemma CloseStepContinues(s: State, list: seq<nat>, stage: Stage)
    requires list != [] && CloseStep(s, list, stage).Some?
    ensures var s' := CloseStep(s, list, stage).value.0; SameIdentities(s, s') && Continues(s, s')
  {
  }

  lemma OpeningOrInsertContinues(cfg: Config, s: State, a: Act)
    requires (s.loop.Opening? || s.loop.Insert?) && LoopNext(cfg, s, a).Some?
    ensures var s' := LoopNext(cfg, s, a).value;
      && Continues(s, s') && s'.cache == s.cache && s'.resolutions == s.resolutions && s'.control == s.control
      && s'.replies == s.replies && s'.forwards == s.forwards && s.k.next <= s'.k.next
  {
    var s' := LoopNext(cfg, s, a).value;
    assert s'.sessions == s.sessions || s'.sessions[..|s.sessions|] == s.sessions;
  }

  lemma LoopContinues(cfg: Config, s: State, a: Act)
    requires LoopNext(cfg, s, a).Some?
    ensures Continues(s, LoopNext(cfg, s, a).value)
  {
    if Simple(s) {
      SimpleFrame(cfg, s, a);
    } else if s.loop.Start? {
      StartFrame(cfg, s, a);
    } else if s.loop.Touch? || s.loop.Send? {
      TouchOrSendFrame(cfg, s, a);
    } else if s.loop.Select? {
      SelectFrame(cfg, s, a);
    } else if s.loop.Sweep? {
      SweepContinues(cfg, s, a);
    } else {
      OpeningOrInsertContinues(cfg, s, a);
    }
  }

  lemma ControlOtherFrame(cfg: Config, s: State, a: Act)
    requires !s.control.SelectAll? && (s.control.SweepAll? ==> s.control.list == []) && ControlNext(cfg, s, a).Some?
    ensures var s' := ControlNext(cfg, s, a).value;
      && s'.sessions == s.sessions && s'.table == s.table && s'.replies == s.replies && s'.forwards == s.forwards
      && s.resolutions <= s'.resolutions && (s'.loop == s.loop || s'.loop.Init? || s'.loop.Off?)
  {
  }

  /** Start and Stop themselves never touch a session: by the time Stop sweeps, the loop has. */
  lemma ControlFrame(cfg: Config, s: State, a: Act)
    requires Inv(cfg, s) && ControlNext(cfg, s, a).Some?
    ensures var s' := ControlNext(cfg, s, a).value;
      && s'.sessions == s.sessions && s'.table == s.table && s'.replies == s.replies && s'.forwards == s.forwards
      && s.resolutions <= s'.resolutions && (s'.loop == s.loop || s'.loop.Init? || s'.loop.Off?)
  {
    if s.control.SelectAll? {
      ControlSelectFrame(cfg, s, a);
      NothingToSelect(cfg, s, a.now, a.order);
    } else {
      ControlOtherFrame(cfg, s, a);
    }
  }

  lemma StepContinues(cfg: Config, s: State, step: Step)
    requires Inv(cfg, s) && Next(cfg, s, step).Some?
    ensures Continues(s, Next(cfg, s, step).value)
  {
    match step {
      case Loop(a) => LoopContinues(cfg, s, a);
      case Control(a) => ControlFrame(cfg, s, a);
      case Resolver(a) => ResolverFrame(cfg, s, a);
      case Receiver(i, a) => ReceiverFrame(s, i, a);
    }
  }

  lemma {:induction false} RunContinues(cfg: Config, s: State, run: seq<Step>)
    requires Inv(cfg, s) && After(cfg, s, run).Some?
    ensures Continues(s, After(cfg, s, run).value)
    decreases run
  {
    if run != [] {
      StepContinues(cfg, s, run[0]);
      StepKeepsInv(cfg, s, run[0]);
      RunContinues(cfg, Next(cfg, s, run[0]).value, run[1..]);
    }
  }

  lemma MostAndLast(run: seq<Step>)
    requires run != []
    ensures run == run[..|run| - 1] + [run[|run| - 1]]
  {
  }

  /** A run and one more step. */
  lemma {:induction false} RunSplits(cfg: Config, s: State, run: seq<Step>, step: Step)
    ensures After(cfg, s, run + [step]) ==
            match After(cfg, s, run) case None => None case Some(t) => Next(cfg, t, step)
    decreases run
  {
    if run == [] {
      assert (run + [step])[1..] == [];
    } else {
      assert (run + [step])[1..] == run[1..] + [step];
      if Next(cfg, s, run[0]).Some? { RunSplits(cfg, Next(cfg, s, run[0]).value, run[1..], step); }
    }
  }

  // The target cache and the choice of a session's target.

  lemma LearnsLastGood(cfg: Config, s: State, result: seq<Endpoint>)
    requires s.cache == LastGood(cfg.preference, s.resolutions)
    ensures var s' := Learn(cfg, s, result);
      && s'.cache == LastGood(cfg.preference, s'.resolutions)
      && (s.cache != [] || Arranged(result, cfg.preference) != [] ==> s'.cache != [])
      && s.resolutions <= s'.resolutions
  {
    RefreshedIsLastGood(cfg.preference, s.resolutions, result);
  }

  lemma StillWasCached(cfg: Config, s: State, s': State, es: seq<Endpoint>)
    requires WasCached(cfg, s, es) && s.resolutions <= s'.resolutions
    ensures WasCached(cfg, s', es)
  {
    var n: nat :| n <= |s.resolutions| && es == LastGood(cfg.preference, s.resolutions[..n]);
    assert s'.resolutions[..n] == s.resolutions[..n];
  }

  predicate Learned(cfg: Config, s: State, s': State, result: seq<Endpoint>) {
    s'.cache == Learn(cfg, s, result).cache && s'.resolutions == Learn(cfg, s, result).resolutions
  }

  predicate SameCache(s: State, s': State) {
    s'.cache == s.cache && s'.resolutions == s.resolutions
  }

  /** How a step of the loop thread may use the cached target list. */
  predicate UsesCache(s: State, s': State) {
    && SameCache(s, s') && s'.control == s.control
    && (s'.loop.Opening? ==> s'.loop.snap == s.cache && s.cache != [])
    && (s'.loop.Insert? ==> s.loop.Opening? && s'.loop.snap == s.loop.snap
                            && FirstMade(s'.loop.snap, s'.loop.made, s'.loop.target))
    && (|s'.sessions| > |s.sessions| ==>
          && s.loop.Insert? && |s'.sessions| == |s.sessions| + 1
          && s'.sessions[|s.sessions|].snapshot == s.loop.snap && s'.sessions[|s.sessions|].made == s.loop.made
          && s'.sessions[|s.sessions|].target == s.loop.target)
  }

  lemma NowCached(cfg: Config, s: State)
    requires s.cache == LastGood(cfg.preference, s.resolutions)
    ensures WasCached(cfg, s, s.cache)
  {
    assert s.resolutions[..|s.resolutions|] == s.resolutions;
  }

  lemma PinningLasts(cfg: Config, s: State, s': State, i: nat)
    requires i < |s.sessions| && Continues(s, s') && Pinned(s.sessions[i]) && WasCached(cfg, s, s.sessions[i].snapshot)
    ensures Pinned(s'.sessions[i]) && WasCached(cfg, s', s'.sessions[i].snapshot)
  {
    assert SameRecord(s.sessions[i], s'.sessions[i]);
    StillWasCached(cfg, s, s', s.sessions[i].snapshot);
  }

  lemma UseKeepsPinning(cfg: Config, s: State, s': State)
    requires UsesCache(s, s') && Continues(s, s')
    requires forall i :: 0 <= i < |s.sessions| ==> Pinned(s.sessions[i]) && WasCached(cfg, s, s.sessions[i].snapshot)
    requires s.loop.Insert? ==> WasCached(cfg, s, s.loop.snap) && FirstMade(s.loop.snap, s.loop.made, s.loop.target)
    ensures forall i :: 0 <= i < |s'.sessions| ==> Pinned(s'.sessions[i]) && WasCached(cfg, s', s'.sessions[i].snapshot)
  {
    forall i | 0 <= i < |s'.sessions| ensures Pinned(s'.sessions[i]) && WasCached(cfg, s', s'.sessions[i].snapshot) {
      if i < |s.sessions| {
        PinningLasts(cfg, s, s', i);
      } else {
        assert i == |s.sessions|;
        StillWasCached(cfg, s, s', s.loop.snap);
      }
    }
  }

  lemma UseKeepsCached(cfg: Config, s: State, s': State)
    requires Cached(cfg, s) && UsesCache(s, s') && Continues(s, s')
    ensures Cached(cfg, s')
  {
    UseKeepsPinning(cfg, s, s');
    if s'.loop.Opening? {
      NowCached(cfg, s');
    } else if s'.loop.Insert? {
      StillWasCached(cfg, s, s', s.loop.snap);
    }
  }

  lemma LoopCacheFrame(cfg: Config, s: State, a: Act)
    requires LoopNext(cfg, s, a).Some?
    ensures UsesCache(s, LoopNext(cfg, s, a).value)
  {
    if Simple(s) {
      SimpleFrame(cfg, s, a);
      SimpleUsesCache(cfg, s, a);
    } else if s.loop.Start? {
      StartFrame(cfg, s, a);
    } else if s.loop.Touch? || s.loop.Send? {
      TouchOrSendFrame(cfg, s, a);
    } else if s.loop.Select? {
      SelectFrame(cfg, s, a);
    } else if s.loop.Sweep? {
      SweepUsesCache(cfg, s, a);
    } else {
      ChoiceUsesCache(cfg, s, a);
    }
  }

  lemma SimpleUsesCache(cfg: Config, s: State, a: Act)
    requires Simple(s) && LoopNext(cfg, s, a).Some?
    ensures !LoopNext(cfg, s, a).value.loop.Insert?
    ensures LoopNext(cfg, s, a).value.loop.Opening? ==> LoopNext(cfg, s, a).value.loop.snap == s.cache && s.cache != []
  {
  }

  lemma SweepUsesCache(cfg: Config, s: State, a: Act)
    requires s.loop.Sweep? && LoopNext(cfg, s, a).Some?
    ensures UsesCache(s, LoopNext(cfg, s, a).value)
  {
    SweepFrame(cfg, s, a);
  }

  lemma ChoiceUsesCache(cfg: Config, s: State, a: Act)
    requires (s.loop.Opening? || s.loop.Insert?) && LoopNext(cfg, s, a).Some?
    ensures UsesCache(s, LoopNext(cfg, s, a).value)
  {
  }

  lemma ControlCacheFrame(cfg: Config, s: State, a: Act)
    requires ControlNext(cfg, s, a).Some?
    ensures var s' := ControlNext(cfg, s, a).value;
      && (if s.control.Stopped? then Learned(cfg, s, s', a.result) else SameCache(s, s'))
      && (s.control.Stopped? && !s'.control.Stopped? ==> Arranged(a.result, cfg.preference) != [])
  {
    if s.control.SelectAll? {
      ControlSelectFrame(cfg, s, a);
    } else {
      ControlCacheElsewhere(cfg, s, a);
    }
  }

  lemma ControlCacheElsewhere(cfg: Config, s: State, a: Act)
    requires ControlNext(cfg, s, a).Some? && !s.control.SelectAll?
    ensures var s' := ControlNext(cfg, s, a).value;
      && (if s.control.Stopped? then Learned(cfg, s, s', a.result) else SameCache(s, s'))
      && (s.control.Stopped? && !s'.control.Stopped? ==> Arranged(a.result, cfg.preference) != [])
  {
  }

  lemma ResolverCacheFrame(cfg: Config, s: State, a: Act)
    requires ResolverNext(cfg, s, a).Some?
    ensures var s' := ResolverNext(cfg, s, a).value;
      if a.Resolved? then Learned(cfg, s, s', a.result) else SameCache(s, s')
  {
  }

  lemma OthersCacheFrame(cfg: Config, s: State, step: Step)
    requires Inv(cfg, s) && Cached(cfg, s) && Next(cfg, s, step).Some? && !step.Loop?
    ensures var s' := Next(cfg, s, step).value;
      && |s'.sessions| == |s.sessions|
      && s'.cache == LastGood(cfg.preference, s'.resolutions) && (!s'.control.Stopped? ==> s'.cache != [])
      && (s'.loop.Opening? || s'.loop.Insert? ==> s'.loop == s.loop)
  {
    if step.Receiver? {
      ReceiverFrame(s, step.i, step.act);
    } else if step.Resolver? {
      ResolverFrame(cfg, s, step.act);
      ResolverCacheFrame(cfg, s, step.act);
      if step.act.Resolved? { LearnsLastGood(cfg, s, step.act.result); }
    } else {
      ControlFrame(cfg, s, step.act);
      ControlCacheFrame(cfg, s, step.act);
      if s.control.Stopped? { LearnsLastGood(cfg, s, step.act.result); }
    }
  }

  lemma OthersKeepCached(cfg: Config, s: State, s': State)
    requires Cached(cfg, s) && Continues(s, s') && |s'.sessions| == |s.sessions|
    requires s'.cache == LastGood(cfg.preference, s'.resolutions) && (!s'.control.Stopped? ==> s'.cache != [])
    requires s'.loop.Opening? || s'.loop.Insert? ==> s'.loop == s.loop
    ensures Cached(cfg, s')
  {
    forall i | 0 <= i < |s'.sessions| ensures Pinned(s'.sessions[i]) && WasCached(cfg, s', s'.sessions[i].snapshot) {
      assert SameRecord(s.sessions[i], s'.sessions[i]);
      StillWasCached(cfg, s, s', s.sessions[i].snapshot);
    }
    if s.loop.Opening? || s.loop.Insert? { StillWasCached(cfg, s, s', s.loop.snap); }
  }

  lemma StepKeepsCached(cfg: Config, s: State, step: Step)
    requires Inv(cfg, s) && Cached(cfg, s) && Next(cfg, s, step).Some?
    ensures Cached(cfg, Next(cfg, s, step).value)
  {
    var s' := Next(cfg, s, step).value;
    StepContinues(cfg, s, step);
    if step.Loop? {
      LoopCacheFrame(cfg, s, step.act);
      UseKeepsCached(cfg, s, s');
    } else {
      OthersCacheFrame(cfg, s, step);
      OthersKeepCached(cfg, s, s');
    }
  }

  // Histories of datagrams.

  lemma {:induction false} NeverOn(forwards: seq<Forward>, replies: seq<Reply>, sock: nat)
    requires forall f :: f in forwards ==> f.sock != sock
    requires forall r :: r in replies ==> r.sock != sock
    ensures SentUp(forwards, sock) == [] && SentDown(replies, sock) == []
    decreases |forwards| + |replies|
  {
    if forwards != [] { NeverOn(forwards[..|forwards| - 1], replies, sock); }
    if replies != [] { NeverOn(forwards, replies[..|replies| - 1], sock); }
  }

  lemma CountsSent(t: Tally, sizes: seq<nat>, n: nat)
    requires Tallies(t, sizes)
    ensures Tallies(Count(t, n), sizes + [n])
  {
    assert (sizes + [n])[..|sizes|] == sizes;
    ModPlus(|sizes|, 1);
    ModPlus(Sum(sizes), n);
  }

  lemma ModPlus(a: nat, n: nat)
    ensures (a % U64 + n) % U64 == (a + n) % U64
  {
  }

  lemma ReplyCounted(s: State, r: Reply, sock: nat)
    ensures SentDown(s.replies + [r], sock) == SentDown(s.replies, sock) + if r.sock == sock then [r.sent] else []
  {
    assert (s.replies + [r])[..|s.replies|] == s.replies;
  }

  lemma ForwardCounted(s: State, f: Forward, sock: nat)
    ensures SentUp(s.forwards + [f], sock) == SentUp(s.forwards, sock) + if f.sock == sock then [f.sent] else []
  {
    assert (s.forwards + [f])[..|s.forwards|] == s.forwards;
  }

  ghost predicate SameTallies(s: State, s': State, i: nat)
    requires i < |s.sessions| <= |s'.sessions|
  {
    s'.sessions[i].up == s.sessions[i].up && s'.sessions[i].down == s.sessions[i].down
  }

  /** A step that passes nothing on; sessions it adds start counting at zero. */
  ghost predicate Quiet(s: State, s': State) {
    && s'.replies == s.replies && s'.forwards == s.forwards && |s.sessions| <= |s'.sessions|
    && (forall i :: 0 <= i < |s.sessions| ==> SameTallies(s, s', i))
    && (forall i :: |s.sessions| <= i < |s'.sessions| ==>
          && s'.sessions[i].up == Tally(0, 0) && s'.sessions[i].down == Tally(0, 0)
          && forall j :: 0 <= j < |s.sessions| ==> s'.sessions[j].sock != s'.sessions[i].sock)
  }

  /** A step in which session `n` passes a datagram on to the target, or back to the client. */
  ghost predicate Forwards(s: State, s': State, n: nat, f: Forward) {
    && n < |s.sessions| == |s'.sessions| && s'.forwards == s.forwards + [f] && s'.replies == s.replies
    && f.sock == s.sessions[n].sock && f.peer == s.sessions[n].client && f.target == s.sessions[n].target
    && s'.sessions[n].up == Count(s.sessions[n].up, f.sent) && s'.sessions[n].down == s.sessions[n].down
    && forall i :: 0 <= i < |s.sessions| && i != n ==> SameTallies(s, s', i)
  }

  ghost predicate Replies(s: State, s': State, n: nat, r: Reply) {
    && n < |s.sessions| == |s'.sessions| && s'.replies == s.replies + [r] && s'.forwards == s.forwards
    && r.sock == s.sessions[n].sock && r.peer == s.sessions[n].client
    && s'.sessions[n].down == Count(s.sessions[n].down, r.sent) && s'.sessions[n].up == s.sessions[n].up
    && forall i :: 0 <= i < |s.sessions| && i != n ==> SameTallies(s, s', i)
  }

  ghost predicate Distinct(s: State) {
    forall i, j :: 0 <= i < j < |s.sessions| ==> s.sessions[i].sock != s.sessions[j].sock
  }

  lemma StillOwn(s: State, s': State)
    requires Continues(s, s')
    ensures forall r :: OwnReply(s, r) ==> OwnReply(s', r)
    ensures forall f :: OwnForward(s, f) ==> OwnForward(s', f)
  {
    forall r | OwnReply(s, r) ensures OwnReply(s', r) {
      var i :| 0 <= i < |s.sessions| && s.sessions[i].sock == r.sock && s.sessions[i].client == r.peer;
      assert SameRecord(s.sessions[i], s'.sessions[i]);
    }
    forall f | OwnForward(s, f) ensures OwnForward(s', f) {
      var i :| 0 <= i < |s.sessions| && s.sessions[i].sock == f.sock && s.sessions[i].client == f.peer
             && s.sessions[i].target == f.target;
      assert SameRecord(s.sessions[i], s'.sessions[i]);
    }
  }

  lemma QuietKeepsHistory(cfg: Config, s: State, s': State)
    requires History(cfg, s) && Continues(s, s') && Quiet(s, s')
    ensures History(cfg, s')
  {
    StillOwn(s, s');
    forall i | 0 <= i < |s'.sessions|
      ensures Tallies(s'.sessions[i].up, SentUp(s'.forwards, s'.sessions[i].sock))
      ensures Tallies(s'.sessions[i].down, SentDown(s'.replies, s'.sessions[i].sock))
    {
      if i < |s.sessions| {
        assert SameTallies(s, s', i) && SameRecord(s.sessions[i], s'.sessions[i]);
      } else {
        FreshTallies(s, s', i);
      }
    }
  }

  lemma FreshTallies(s: State, s': State, i: nat)
    requires |s.sessions| <= i < |s'.sessions| && Continues(s, s') && Quiet(s, s')
    requires forall r :: r in s.replies ==> OwnReply(s, r)
    requires forall f :: f in s.forwards ==> OwnForward(s, f)
    ensures Tallies(s'.sessions[i].up, SentUp(s'.forwards, s'.sessions[i].sock))
    ensures Tallies(s'.sessions[i].down, SentDown(s'.replies, s'.sessions[i].sock))
  {
    forall j | 0 <= j < |s.sessions| ensures s.sessions[j].sock != s'.sessions[i].sock {
      assert SameRecord(s.sessions[j], s'.sessions[j]);
    }
    NeverOn(s.forwards, s.replies, s'.sessions[i].sock);
  }

  lemma ForwardKeepsHistory(cfg: Config, s: State, s': State, n: nat, f: Forward)
    requires History(cfg, s) && Continues(s, s') && Distinct(s) && Forwards(s, s', n, f)
    ensures History(cfg, s')
  {
    StillOwn(s, s');
    assert OwnForward(s, f);
    forall i | 0 <= i < |s'.sessions|
      ensures Tallies(s'.sessions[i].up, SentUp(s'.forwards, s'.sessions[i].sock))
      ensures Tallies(s'.sessions[i].down, SentDown(s'.replies, s'.sessions[i].sock))
    {
      assert SameRecord(s.sessions[i], s'.sessions[i]);
      ForwardCounted(s, f, s.sessions[i].sock);
      if i == n {
        CountsSent(s.sessions[n].up, SentUp(s.forwards, f.sock), f.sent);
      } else {
        assert SameTallies(s, s', i);
        assert SentUp(s.forwards, s.sessions[i].sock) + [] == SentUp(s.forwards, s.sessions[i].sock);
      }
    }
  }

  lemma ReplyKeepsHistory(cfg: Config, s: State, s': State, n: nat, r: Reply)
    requires History(cfg, s) && Continues(s, s') && Distinct(s) && Replies(s, s', n, r)
    ensures History(cfg, s')
  {
    StillOwn(s, s');
    assert OwnReply(s, r);
    forall i | 0 <= i < |s'.sessions|
      ensures Tallies(s'.sessions[i].up, SentUp(s'.forwards, s'.sessions[i].sock))
      ensures Tallies(s'.sessions[i].down, SentDown(s'.replies, s'.sessions[i].sock))
    {
      assert SameRecord(s.sessions[i], s'.sessions[i]);
      ReplyCounted(s, r, s.sessions[i].sock);
      if i == n {
        CountsSent(s.sessions[n].down, SentDown(s.replies, r.sock), r.sent);
      } else {
        assert SameTallies(s, s', i);
        assert SentDown(s.replies, s.sessions[i].sock) + [] == SentDown(s.replies, s.sessions[i].sock);
      }
    }
  }

  // Which steps are which.

  lemma SendIsForward(cfg: Config, s: State, a: Act)
    requires Inv(cfg, s) && s.loop.Send? && a.Sent? && a.n > 0 && LoopNext(cfg, s, a).Some?
    ensures var z := s.sessions[s.loop.i];
      Forwards(s, LoopNext(cfg, s, a).value, s.loop.i, Forward(s.loop.client, z.sock, z.target, s.loop.payload, a.n))
  {
    assert PlaceOf(s, s.loop.i) == Tabled;
    assert SessionOk(s.sessions[s.loop.i], Tabled, s.k);
  }

  lemma ReplyingIsReply(s: State, i: nat, a: Act, p: Place)
    requires i < |s.sessions| && SessionOk(s.sessions[i], p, s.k)
    requires s.sessions[i].thread.Replying? && a.Sent? && a.n > 0 && ReceiverNext(s, i, a).Some?
    ensures var z := s.sessions[i];
      Replies(s, ReceiverNext(s, i, a).value, i, Reply(z.client, z.sock, z.thread.payload, a.n))
  {
  }

  lemma OpeningOrInsertIsQuiet(cfg: Config, s: State, a: Act)
    requires (s.loop.Opening? || s.loop.Insert?) && LoopNext(cfg, s, a).Some?
    requires s.loop.Insert? ==> forall i :: 0 <= i < |s.sessions| ==> s.sessions[i].sock != s.loop.x
    ensures Quiet(s, LoopNext(cfg, s, a).value)
  {
    OpeningOrInsertContinues(cfg, s, a);
  }

  lemma TouchOrSendIsQuiet(cfg: Config, s: State, a: Act)
    requires (s.loop.Touch? || s.loop.Send?) && LoopNext(cfg, s, a).Some? && !(s.loop.Send? && a.Sent? && a.n > 0)
    ensures Quiet(s, LoopNext(cfg, s, a).value)
  {
  }

  lemma SelectOrSweepIsQuiet(cfg: Config, s: State, a: Act)
    requires (s.loop.Select? || s.loop.Sweep?) && LoopNext(cfg, s, a).Some?
    ensures Quiet(s, LoopNext(cfg, s, a).value)
  {
    if s.loop.Select? { SelectFrame(cfg, s, a); } else { SweepFrame(cfg, s, a); }
  }

  lemma LoopIsQuiet(cfg: Config, s: State, a: Act)
    requires LoopNext(cfg, s, a).Some? && !(s.loop.Send? && a.Sent? && a.n > 0)
    requires s.loop.Insert? ==> forall i :: 0 <= i < |s.sessions| ==> s.sessions[i].sock != s.loop.x
    ensures Quiet(s, LoopNext(cfg, s, a).value)
  {
    if Simple(s) {
      SimpleFrame(cfg, s, a);
    } else if s.loop.Start? {
      StartFrame(cfg, s, a);
    } else if s.loop.Touch? || s.loop.Send? {
      TouchOrSendIsQuiet(cfg, s, a);
    } else if s.loop.Select? || s.loop.Sweep? {
      SelectOrSweepIsQuiet(cfg, s, a);
    } else {
      OpeningOrInsertIsQuiet(cfg, s, a);
    }
  }

  lemma ReceiverIsQuiet(s: State, i: nat, a: Act)
    requires ReceiverNext(s, i, a).Some? && !(s.sessions[i].thread.Replying? && a.Sent? && a.n > 0)
    ensures Quiet(s, ReceiverNext(s, i, a).value)
  {
  }

  lemma StepKeepsHistory(cfg: Config, s: State, step: Step)
    requires Inv(cfg, s) && History(cfg, s) && Next(cfg, s, step).Some?
    ensures History(cfg, Next(cfg, s, step).value)
  {
    var s' := Next(cfg, s, step).value;
    StepContinues(cfg, s, step);
    match step {
      case Loop(a) =>
        if s.loop.Send? && a.Sent? && a.n > 0 {
          var z := s.sessions[s.loop.i];
          SendIsForward(cfg, s, a);
          ForwardKeepsHistory(cfg, s, s', s.loop.i, Forward(s.loop.client, z.sock, z.target, s.loop.payload, a.n));
        } else {
          LoopIsQuiet(cfg, s, a);
          QuietKeepsHistory(cfg, s, s');
        }
      case Receiver(i, a) =>
        var z := s.sessions[i];
        if z.thread.Replying? && a.Sent? && a.n > 0 {
          ReplyingIsReply(s, i, a, PlaceOf(s, i));
          ReplyKeepsHistory(cfg, s, s', i, Reply(z.client, z.sock, z.thread.payload, a.n));
        } else {
          ReceiverIsQuiet(s, i, a);
          QuietKeepsHistory(cfg, s, s');
        }
      case Control(a) =>
        ControlFrame(cfg, s, a);
        QuietKeepsHistory(cfg, s, s');
      case Resolver(a) =>
        ResolverFrame(cfg, s, a);
        QuietKeepsHistory(cfg, s, s');
    }
  }
}
