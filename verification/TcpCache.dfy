/** The target cache of a TCP forwarder over its runs. */
module TcpCache {
  import opened Endpoints
  import opened TargetCache
  import opened TcpMachine
  import opened TcpSafety

  /** The cache is the last good resolution and is not empty once Start has got past resolving, so
      the accept thread never has to refresh it itself. */
  ghost predicate Cached(cfg: Config, s: State) {
    && s.cache == LastGood(cfg.preference, s.resolutions)
    && (!s.control.Stopped? ==> s.cache != [])
    && !s.accept.Refresh?
    && (s.accept.Connect? || s.accept.Trial? ==> s.accept.snap != [] && s.accept.i <= |s.accept.snap|)
    && (s.accept.Trial? ==> s.accept.i < |s.accept.snap|)
  }

  predicate Learned(cfg: Config, s: State, s': State, result: seq<Endpoint>) {
    && s'.resolutions == s.resolutions + [result]
    && s'.cache == Refreshed(cfg.preference, s.cache, result)
  }

  predicate SameCache(s: State, s': State) {
    s'.cache == s.cache && s'.resolutions == s.resolutions
  }

  lemma LearnsLastGood(cfg: Config, s: State, s': State, result: seq<Endpoint>)
    requires s.cache == LastGood(cfg.preference, s.resolutions) && Learned(cfg, s, s', result)
    ensures s'.cache == LastGood(cfg.preference, s'.resolutions)
    ensures s.cache != [] || Arranged(result, cfg.preference) != [] ==> s'.cache != []
  {
    RefreshedIsLastGood(cfg.preference, s.resolutions, result);
  }

  lemma ListenCacheFrame(cfg: Config, s: State, a: Act)
    requires ListenNext(cfg, s, a).Some?
    ensures var s' := ListenNext(cfg, s, a).value;
      && (if s.control.Stopped? then Learned(cfg, s, s', a.result) else SameCache(s, s'))
      && (s.control.Stopped? && !s'.control.Stopped? ==> Arranged(a.result, cfg.preference) != [])
      && (s'.accept == s.accept || s'.accept.Top?)
  {
  }

  lemma StopCacheFrame(s: State, a: Act)
    requires Inv(s) && StopNext(s, a).Some?
    ensures var s' := StopNext(s, a).value;
      SameCache(s, s') && (s'.accept == s.accept || s'.accept.Off?) && !s.control.Stopped?
  {
    StopFrame(s, a);
    if s.control.JoinSessions? && s.control.list != [] {
      assert s.control.list[0] in s.control.list;
      assert PlaceOk(s, s.control.list[0]);
    }
  }

  lemma ResolverCacheFrame(cfg: Config, s: State, a: Act)
    requires ResolverNext(cfg, s, a).Some?
    ensures var s' := ResolverNext(cfg, s, a).value;
      && (if a.Resolved? then Learned(cfg, s, s', a.result) else SameCache(s, s'))
      && s'.accept == s.accept && s'.control == s.control
  {
  }

  lemma AcceptCacheFrame(cfg: Config, s: State, a: Act)
    requires s.cache != [] && !s.accept.Refresh? && !s.accept.Reap? && !s.accept.Reaping? && AcceptNext(cfg, s, a).Some?
    requires s.accept.Connect? || s.accept.Trial? ==> s.accept.snap != [] && s.accept.i <= |s.accept.snap|
    requires s.accept.Trial? ==> s.accept.i < |s.accept.snap|
    ensures var s' := AcceptNext(cfg, s, a).value;
      && SameCache(s, s') && s'.control == s.control && !s'.accept.Refresh?
      && (s'.accept.Connect? || s'.accept.Trial? ==> s'.accept.snap != [] && s'.accept.i <= |s'.accept.snap|)
      && (s'.accept.Trial? ==> s'.accept.i < |s'.accept.snap|)
  {
  }

  lemma ReapCacheFrame(s: State, a: Act)
    requires (s.accept.Reap? || s.accept.Reaping?) && ReapNext(s, a).Some?
    ensures var s' := ReapNext(s, a).value;
      && SameCache(s, s') && s'.control == s.control && (s'.accept.Reaping? || s'.accept.Exited? || s'.accept.Load?)
  {
  }

  lemma AcceptKeepsControl(cfg: Config, s: State, a: Act)
    requires Next(cfg, s, Step.Accept(a)).Some?
    ensures Next(cfg, s, Step.Accept(a)).value.control == s.control
  {
  }

  lemma ControlKeepsCached(cfg: Config, s: State, a: Act)
    requires Inv(s) && Cached(cfg, s) && Next(cfg, s, Step.Control(a)).Some?
    ensures Cached(cfg, Next(cfg, s, Step.Control(a)).value)
  {
    if Listening(s.control) {
      ListenKeepsCached(cfg, s, a);
    } else {
      StopCacheFrame(s, a);
    }
  }

  lemma ListenKeepsCached(cfg: Config, s: State, a: Act)
    requires Cached(cfg, s) && ListenNext(cfg, s, a).Some?
    ensures Cached(cfg, ListenNext(cfg, s, a).value)
  {
    ListenCacheFrame(cfg, s, a);
    if s.control.Stopped? { LearnsLastGood(cfg, s, ListenNext(cfg, s, a).value, a.result); }
  }

  lemma ResolverKeepsCached(cfg: Config, s: State, a: Act)
    requires Cached(cfg, s) && ResolverNext(cfg, s, a).Some?
    ensures Cached(cfg, ResolverNext(cfg, s, a).value)
  {
    ResolverCacheFrame(cfg, s, a);
    if a.Resolved? { LearnsLastGood(cfg, s, ResolverNext(cfg, s, a).value, a.result); }
  }

  lemma AcceptKeepsCached(cfg: Config, s: State, a: Act)
    requires Cached(cfg, s) && !s.control.Stopped? && Next(cfg, s, Step.Accept(a)).Some?
    ensures Cached(cfg, Next(cfg, s, Step.Accept(a)).value)
  {
    if s.accept.Reap? || s.accept.Reaping? { ReapCacheFrame(s, a); } else { AcceptCacheFrame(cfg, s, a); }
  }

  lemma AcceptNeedsStart(cfg: Config, s: State, a: Act)
    requires ControlOk(s) && Next(cfg, s, Step.Accept(a)).Some?
    ensures !s.control.Stopped?
  {
  }

  lemma StepKeepsCached(cfg: Config, s: State, step: Step)
    requires Inv(s) && Cached(cfg, s) && Next(cfg, s, step).Some?
    ensures Cached(cfg, Next(cfg, s, step).value)
  {
    match step {
      case Control(a) => ControlKeepsCached(cfg, s, a);
      case Accept(a) =>
        AcceptNeedsStart(cfg, s, a);
        AcceptKeepsCached(cfg, s, a);
      case Resolver(a) => ResolverKeepsCached(cfg, s, a);
      case Worker(n) => WorkerSteps(s, n);
    }
  }

  lemma {:induction false} RunKeepsCached(cfg: Config, s: State, run: seq<Step>)
    requires Inv(s) && Cached(cfg, s) && After(cfg, s, run).Some?
    ensures Inv(After(cfg, s, run).value) && Cached(cfg, After(cfg, s, run).value)
    decreases run
  {
    if run != [] {
      StepKeepsInv(cfg, s, run[0]);
      StepKeepsCached(cfg, s, run[0]);
      RunKeepsCached(cfg, Next(cfg, s, run[0]).value, run[1..]);
    }
  }
}
