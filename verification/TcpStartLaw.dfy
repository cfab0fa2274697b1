/**
 What the thread that calls Start and Stop does (src/net/forwarder.cpp:226-361), told by its acts in a run,
 for a forwarder in TCP mode; and what the refresher does beside it.
 */
module TcpStartLaw {
  import opened Endpoints
  import opened Sockets
  import opened StartLaw
  import opened TargetCache
  import opened TcpCache
  import opened TcpMachine
  import opened TcpSafety
  import opened TcpTheorems
  import TcpAcceptLaw

  /** An act of the thread, as an entry for the book.  Each session is asked to stop, then each is joined. */
  function EventOf(a: Act, preference: Preference): Event {
    match a
    case Resolved(result, candidates) => Resolution(exists e :: e in result && Allowed(preference, e), candidates)
    case Opened(h) => Made(h)
    case Chosen(order) => Listed(2 * |order| + 3)
    case Go => Action
    case _ => Failure
  }

  /** The book of a run. */
  ghost function Kept(cfg: Config, run: seq<Step>): Option<Book>
    decreases |run|
  {
    if run == [] then Some(NEW)
    else
      match Kept(cfg, run[..|run| - 1])
      case None => None
      case Some(b) =>
        var last := run[|run| - 1];
        if last.Control? then Entered(b, EventOf(last.act, cfg.preference)) else Some(b)
  }

  predicate AtPhase(c: Control, b: Book) {
    match c
    case Stopped => b.phase.Down?
    case Trying(left) => b.phase.Search? && |b.answers| + left == b.total
    case Candidate(h, _, left) => b.phase.Offered? && |b.answers| + 1 + left == b.total && h == b.number
    case Up => b.phase.Serve?
    case ShutListen => b.phase == Wind(1)
    case CloseListen => b.phase == Wind(2)
    case ForgetListen => b.phase == Wind(3)
    case JoinAccept => b.phase == Wind(4)
    case JoinResolver => b.phase == Wind(5)
    case Collect => b.phase == Wind(6)
    case StopSessions(todo, all) => b.phase == Finish(|todo| + |all| + 3)
    case JoinSessions(list) => b.phase == Finish(|list| + 2)
    case Clear => b.phase == Finish(1)
  }

  predicate Agrees(s: State, b: Book) {
    && AtPhase(s.control, b) && Searched(b)
    && (b.phase.Serve? ==> s.listen == b.number)
    && (s.running <==> b.phase.Serve?)
    && (s.running ==> !s.resolver.Off? && !s.resolver.Exited?)
  }

  lemma ListeningAgrees(cfg: Config, s: State, b: Book, a: Act)
    requires ListenNext(cfg, s, a).Some? && Agrees(s, b)
    ensures Entered(b, EventOf(a, cfg.preference)).Some?
    ensures Agrees(ListenNext(cfg, s, a).value, Entered(b, EventOf(a, cfg.preference)).value)
  {
    if a.Resolved? { AllowedRemains(a.result, cfg.preference); }
  }

  lemma StoppingAgrees(cfg: Config, s: State, b: Book, a: Act)
    requires StopNext(s, a).Some? && Agrees(s, b)
    ensures Entered(b, EventOf(a, cfg.preference)).Some?
    ensures Agrees(StopNext(s, a).value, Entered(b, EventOf(a, cfg.preference)).value)
  {
  }

  lemma AcceptKeepsStart(cfg: Config, s: State, a: Act)
    requires Next(cfg, s, Step.Accept(a)).Some?
    ensures var s' := Next(cfg, s, Step.Accept(a)).value;
      s'.control == s.control && s'.listen == s.listen && s'.running == s.running && s'.resolver == s.resolver
  {
    if s.accept.Reap? || s.accept.Reaping? { ReapFrame(s, a); }
  }

  lemma StepAgrees(cfg: Config, s: State, b: Book, step: Step)
    requires Inv(s) && Next(cfg, s, step).Some? && Agrees(s, b)
    ensures var b' := if step.Control? then Entered(b, EventOf(step.act, cfg.preference)) else Some(b);
      b'.Some? && Agrees(Next(cfg, s, step).value, b'.value)
  {
    match step {
      case Control(a) =>
        if Listening(s.control) { ListeningAgrees(cfg, s, b, a); } else { StoppingAgrees(cfg, s, b, a); }
      case Accept(a) => AcceptKeepsStart(cfg, s, a);
      case Resolver(a) => RefresherStays(cfg, s, a);
      case Worker(n) => WorkerSteps(s, n);
    }
  }

  lemma RefresherStays(cfg: Config, s: State, a: Act)
    requires ResolverNext(cfg, s, a).Some?
    ensures var s' := ResolverNext(cfg, s, a).value;
      && s'.control == s.control && s'.listen == s.listen && s'.running == s.running
      && (s.running ==> !s'.resolver.Off? && !s'.resolver.Exited?)
  {
  }

  /** The law of Start and Stop.  The flag is up exactly between the grant of a candidate and the call of Stop.  Start
      listens on the socket of the first candidate that was granted, and gives up only when all have been
      tried in vain or no allowed target was found; Stop does its actions in order, each once. */
  lemma {:induction false} StartKeepsOrder(cfg: Config, run: seq<Step>)
    requires After(cfg, INITIAL, run).Some?
    ensures Kept(cfg, run).Some? && Agrees(After(cfg, INITIAL, run).value, Kept(cfg, run).value)
    decreases |run|
  {
    if run != [] {
      var most, last := run[..|run| - 1], run[|run| - 1];
      TcpAcceptLaw.LastStep(cfg, run);
      StartKeepsOrder(cfg, most);
      StepAgrees(cfg, After(cfg, INITIAL, most).value, Kept(cfg, most).value, last);
    }
  }

  /** Start takes every answer, and Stop can be called whenever the forwarder is up. */
  lemma StartTakesEveryAnswer(cfg: Config, run: seq<Step>, a: Act)
    requires After(cfg, INITIAL, run).Some? && (a.Resolved? || a.Opened? || a.Nothing? || a.Go?)
    requires a.Opened? ==> Free(After(cfg, INITIAL, run).value.k, a.h)
    ensures Kept(cfg, run).Some?
    ensures var s, b := After(cfg, INITIAL, run).value, Kept(cfg, run).value;
      !b.phase.Wind? && !b.phase.Finish? && Entered(b, EventOf(a, cfg.preference)).Some? ==>
        Next(cfg, s, Step.Control(a)).Some?
  {
    StartKeepsOrder(cfg, run);
  }

  // The listener is shut down before it is closed.

  predicate ShutOk(s: State) {
    && (forall x :: x in s.shutListener ==> x < s.k.next)
    && (Serving(s) ==> (s.listenSock in s.shutListener <==> !s.control.Up? && !s.control.ShutListen?))
    && (s.control.Candidate? ==> s.control.x !in s.shutListener)
  }

  lemma AcceptKeepsShut(cfg: Config, s: State, a: Act)
    requires ShutOk(s) && Next(cfg, s, Step.Accept(a)).Some?
    ensures ShutOk(Next(cfg, s, Step.Accept(a)).value)
  {
  }

  lemma ListenKeepsShut(cfg: Config, s: State, a: Act)
    requires ShutOk(s) && ControlOk(s) && ListenNext(cfg, s, a).Some?
    ensures ShutOk(ListenNext(cfg, s, a).value)
  {
  }

  lemma StopKeepsShut(s: State, a: Act)
    requires ShutOk(s) && StopNext(s, a).Some?
    ensures ShutOk(StopNext(s, a).value)
  {
  }

  lemma OthersKeepShut(cfg: Config, s: State, step: Step)
    requires ShutOk(s) && Next(cfg, s, step).Some? && (step.Resolver? || step.Worker?)
    ensures ShutOk(Next(cfg, s, step).value)
  {
  }

  lemma {:induction false} RunKeepsShut(cfg: Config, s: State, run: seq<Step>)
    requires Inv(s) && ShutOk(s) && After(cfg, s, run).Some?
    ensures ShutOk(After(cfg, s, run).value)
    decreases run
  {
    if run != [] {
      var step := run[0];
      StepKeepsInv(cfg, s, step);
      StepKeepsShut(cfg, s, step);
      RunKeepsShut(cfg, Next(cfg, s, step).value, run[1..]);
    }
  }

  lemma StepKeepsShut(cfg: Config, s: State, step: Step)
    requires ShutOk(s) && ControlOk(s) && Next(cfg, s, step).Some?
    ensures ShutOk(Next(cfg, s, step).value)
  {
    match step {
      case Control(a) => if Listening(s.control) { ListenKeepsShut(cfg, s, a); } else { StopKeepsShut(s, a); }
      case Accept(a) => AcceptKeepsShut(cfg, s, a);
      case _ => OthersKeepShut(cfg, s, step);
    }
  }

  /** The listener is not closed before it was shut down, and not shut down while the forwarder is up. */
  lemma ListenerShutBeforeClosed(cfg: Config, s: State)
    requires Reachable(cfg, s)
    ensures Serving(s) && !IsOpen(s.k, s.listenSock) ==> s.listenSock in s.shutListener
    ensures s.running ==> s.listenSock !in s.shutListener
  {
    var run :| After(cfg, INITIAL, run) == Some(s);
    RunKeepsShut(cfg, INITIAL, run);
    ReachableIsInv(cfg, s);
  }

  // The refresher.

  /** Every resolution of a run: those of Start and those of the refresher. */
  function Results(run: seq<Step>): seq<seq<Endpoint>> {
    if run == [] then []
    else
      var last := run[|run| - 1];
      Results(run[..|run| - 1])
      + if (last.Control? || last.Resolver?) && last.act.Resolved? then [last.act.result] else []
  }

  lemma StepLearns(cfg: Config, s: State, step: Step)
    requires Inv(s) && Cached(cfg, s) && Next(cfg, s, step).Some?
    ensures Next(cfg, s, step).value.resolutions
         == s.resolutions + if (step.Control? || step.Resolver?) && step.act.Resolved? then [step.act.result] else []
  {
    match step {
      case Control(a) => if Listening(s.control) { ListenLearns(cfg, s, a); } else { StopLearns(s, a); }
      case Accept(a) => AcceptLearnsNothing(cfg, s, a);
      case Resolver(a) => ResolverCacheFrame(cfg, s, a);
      case Worker(n) => WorkerSteps(s, n);
    }
  }

  lemma ListenLearns(cfg: Config, s: State, a: Act)
    requires ListenNext(cfg, s, a).Some?
    ensures ListenNext(cfg, s, a).value.resolutions == s.resolutions + if a.Resolved? then [a.result] else []
  {
  }

  lemma StopLearns(s: State, a: Act)
    requires Inv(s) && StopNext(s, a).Some?
    ensures !a.Resolved? && StopNext(s, a).value.resolutions == s.resolutions
  {
    StopCacheFrame(s, a);
    StopResolvesNothing(s, a);
  }

  lemma StopResolvesNothing(s: State, a: Act)
    requires StopNext(s, a).Some?
    ensures !a.Resolved?
  {
  }

  lemma AcceptLearnsNothing(cfg: Config, s: State, a: Act)
    requires Inv(s) && Cached(cfg, s) && Next(cfg, s, Step.Accept(a)).Some?
    ensures Next(cfg, s, Step.Accept(a)).value.resolutions == s.resolutions
  {
    AcceptNeedsStart(cfg, s, a);
    if s.accept.Reap? || s.accept.Reaping? { ReapCacheFrame(s, a); } else { AcceptCacheFrame(cfg, s, a); }
  }

  /** No resolution is forgotten: the target list is the last good one of all that were returned. */
  lemma {:induction false} EveryResolutionCounts(cfg: Config, run: seq<Step>)
    requires After(cfg, INITIAL, run).Some?
    ensures After(cfg, INITIAL, run).value.resolutions == Results(run)
    ensures After(cfg, INITIAL, run).value.cache == LastGood(cfg.preference, Results(run))
    decreases |run|
  {
    ReachableIsCached(cfg, After(cfg, INITIAL, run).value);
    if run != [] {
      var most, last := run[..|run| - 1], run[|run| - 1];
      TcpAcceptLaw.LastStep(cfg, run);
      EveryResolutionCounts(cfg, most);
      StepLearns(cfg, After(cfg, INITIAL, most).value, last);
    }
  }

  /** While the forwarder is up the refresher is at work: every fourth step of it is a tick, with a sleep and a look
      at the flag before it, and a tick takes whatever the resolver returns. */
  lemma RefresherServes(cfg: Config, s: State, a: Act)
    requires Reachable(cfg, s) && s.running
    ensures !s.resolver.Off? && !s.resolver.Exited?
    ensures ResolverNext(cfg, s, a).Some? <==> a.Go? || (a.Resolved? && Refresher.TickIn(s.resolver) == 0)
    ensures ResolverNext(cfg, s, a).Some? ==>
              Refresher.TickIn(ResolverNext(cfg, s, a).value.resolver)
              == if Refresher.TickIn(s.resolver) == 0 then 3 else Refresher.TickIn(s.resolver) - 1
  {
    var run :| After(cfg, INITIAL, run) == Some(s);
    StartKeepsOrder(cfg, run);
  }
}
