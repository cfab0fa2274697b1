/**
 What the thread that calls Start and Stop does (src/net/forwarder.cpp:226-361), told by its acts in a run,
 for a forwarder in UDP mode; and what the refresher does beside it.
 */
module UdpStartLaw {
  import opened Endpoints
  import opened Sockets
  import opened StartLaw
  import opened TargetCache
  import opened UdpMachine
  import opened UdpSafety
  import opened UdpTheorems
  import UdpLoopLaw

  /** An act of the thread, as an entry for the book.  A session that is left is closed in four actions. */
  function EventOf(a: Act, preference: Preference): Event {
    match a
    case Resolved(result, candidates) => Resolution(exists e :: e in result && Allowed(preference, e), candidates)
    case Opened(h, _) => Made(h)
    case Chosen(_, order) => Listed(4 * |order| + 1)
    case Go => Action
    case _ => Failure
  }

  /** The book of a run. */
  ghost function Kept(cfg: Config, run: seq<Step>): Option<Book>
    decreases |run|
  {
    if run == [] then Some(NEW)
    else
      match Kept(cfg, run[..|run| - 1])
      case None => None
      case Some(b) =>
        var last := run[|run| - 1];
        if last.Control? then Entered(b, EventOf(last.act, cfg.preference)) else Some(b)
  }

  predicate AtPhase(c: Control, b: Book) {
    match c
    case Stopped => b.phase.Down?
    case Trying(left) => b.phase.Search? && |b.answers| + left == b.total
    case Candidate(h, _, left) => b.phase.Offered? && |b.answers| + 1 + left == b.total && h == b.number
    case Up => b.phase.Serve?
    case ShutListen => b.phase == Wind(1)
    case CloseListen => b.phase == Wind(2)
    case ForgetListen => b.phase == Wind(3)
    case JoinLoop => b.phase == Wind(4)
    case JoinResolver => b.phase == Wind(5)
    case SelectAll => b.phase == Wind(6)
    case SweepAll(_, _) => b.phase == Finish(1)
  }

  predicate Agrees(s: State, b: Book) {
    && AtPhase(s.control, b) && Searched(b)
    && (b.phase.Serve? ==> s.listen == b.number)
    && (s.running <==> b.phase.Serve?)
    && (s.running ==> !s.resolver.Off? && !s.resolver.Exited?)
  }

  lemma ListeningAgrees(cfg: Config, s: State, b: Book, a: Act)
    requires !s.control.SelectAll? && !s.control.SweepAll? && ControlNext(cfg, s, a).Some? && Agrees(s, b)
    ensures Entered(b, EventOf(a, cfg.preference)).Some?
    ensures Agrees(ControlNext(cfg, s, a).value, Entered(b, EventOf(a, cfg.preference)).value)
  {
    if a.Resolved? { AllowedRemains(a.result, cfg.preference); }
  }

  lemma SweepingAgrees(cfg: Config, s: State, b: Book, a: Act)
    requires (s.control.SelectAll? || s.control.SweepAll?) && ControlNext(cfg, s, a).Some? && Agrees(s, b)
    requires s.table == map[] && (s.control.SweepAll? ==> s.control.list == [])
    ensures Entered(b, EventOf(a, cfg.preference)).Some?
    ensures Agrees(ControlNext(cfg, s, a).value, Entered(b, EventOf(a, cfg.preference)).value)
  {
    if s.control.SelectAll? {
      ControlSelectFrame(cfg, s, a);
      NothingToSelect(cfg, s, a.now, a.order);
    }
  }

  lemma LoopKeepsControl(cfg: Config, s: State, a: Act)
    requires LoopNext(cfg, s, a).Some?
    ensures var s' := LoopNext(cfg, s, a).value;
      && s'.control == s.control && s'.listen == s.listen && s'.running == s.running && s'.resolver == s.resolver
      && s'.resolutions == s.resolutions
  {
    if s.loop.Select? { SelectFrame(cfg, s, a); }
    if s.loop.Sweep? { SweepFrame(cfg, s, a); }
  }

  lemma StepAgrees(cfg: Config, s: State, b: Book, step: Step)
    requires Inv(cfg, s) && Next(cfg, s, step).Some? && Agrees(s, b)
    ensures var b' := if step.Control? then Entered(b, EventOf(step.act, cfg.preference)) else Some(b);
      b'.Some? && Agrees(Next(cfg, s, step).value, b'.value)
  {
    match step {
      case Control(a) =>
        if s.control.SelectAll? || s.control.SweepAll? {
          SweepingAgrees(cfg, s, b, a);
        } else {
          ListeningAgrees(cfg, s, b, a);
        }
      case Loop(a) => LoopKeepsControl(cfg, s, a);
      case Resolver(a) => RefresherStays(cfg, s, a);
      case Receiver(i, a) => ReceiverFrame(s, i, a);
    }
  }

  lemma RefresherStays(cfg: Config, s: State, a: Act)
    requires ResolverNext(cfg, s, a).Some?
    ensures var s' := ResolverNext(cfg, s, a).value;
      && s'.control == s.control && s'.listen == s.listen && s'.running == s.running
      && (s.running ==> !s'.resolver.Off? && !s'.resolver.Exited?)
  {
  }

  /** The law of Start and Stop.  The flag is up exactly between the grant of a candidate and the call of Stop.  Start
      listens on the socket of the first candidate that was granted, and gives up only when all have been
      tried in vain or no allowed target was found; Stop does its actions in order, each once. */
  lemma {:induction false} StartKeepsOrder(cfg: Config, run: seq<Step>)
    requires After(cfg, INITIAL, run).Some?
    ensures Kept(cfg, run).Some? && Agrees(After(cfg, INITIAL, run).value, Kept(cfg, run).value)
    decreases |run|
  {
    if run != [] {
      var most, last := run[..|run| - 1], run[|run| - 1];
      UdpLoopLaw.LastStep(cfg, run);
      StartKeepsOrder(cfg, most);
      StepAgrees(cfg, After(cfg, INITIAL, most).value, Kept(cfg, most).value, last);
    }
  }

  /** Start takes every answer, and Stop can be called whenever the forwarder is up. */
  lemma StartTakesEveryAnswer(cfg: Config, run: seq<Step>, a: Act)
    requires After(cfg, INITIAL, run).Some? && (a.Resolved? || a.Opened? || a.Nothing? || a.Go?)
    requires a.Opened? ==> Free(After(cfg, INITIAL, run).value.k, a.h)
    ensures Kept(cfg, run).Some?
    ensures var s, b := After(cfg, INITIAL, run).value, Kept(cfg, run).value;
      !b.phase.Wind? && !b.phase.Finish? && Entered(b, EventOf(a, cfg.preference)).Some? ==>
        ControlNext(cfg, s, a).Some?
  {
    StartKeepsOrder(cfg, run);
  }

  // The refresher.

  /** Every resolution of a run: those of Start and those of the refresher. */
  function Results(run: seq<Step>): seq<seq<Endpoint>> {
    if run == [] then []
    else
      var last := run[|run| - 1];
      Results(run[..|run| - 1]) + if !last.Loop? && !last.Receiver? && last.act.Resolved? then [last.act.result] else []
  }

  lemma ControlLearns(cfg: Config, s: State, a: Act)
    requires ControlNext(cfg, s, a).Some?
    ensures ControlNext(cfg, s, a).value.resolutions == s.resolutions + if a.Resolved? then [a.result] else []
  {
    if s.control.SelectAll? { ControlSelectFrame(cfg, s, a); }
  }

  lemma ResolverLearns(cfg: Config, s: State, a: Act)
    requires ResolverNext(cfg, s, a).Some?
    ensures ResolverNext(cfg, s, a).value.resolutions == s.resolutions + if a.Resolved? then [a.result] else []
  {
  }

  /** No resolution is forgotten: the target list is the last good one of all that were returned. */
  lemma {:induction false} EveryResolutionCounts(cfg: Config, run: seq<Step>)
    requires After(cfg, INITIAL, run).Some?
    ensures After(cfg, INITIAL, run).value.resolutions == Results(run)
    ensures After(cfg, INITIAL, run).value.cache == LastGood(cfg.preference, Results(run))
    decreases |run|
  {
    ReachableIsGood(cfg, After(cfg, INITIAL, run).value);
    if run != [] {
      var most, last := run[..|run| - 1], run[|run| - 1];
      UdpLoopLaw.LastStep(cfg, run);
      EveryResolutionCounts(cfg, most);
      var s := After(cfg, INITIAL, most).value;
      match last {
        case Control(a) => ControlLearns(cfg, s, a);
        case Loop(a) => LoopKeepsControl(cfg, s, a);
        case Resolver(a) => ResolverLearns(cfg, s, a);
        case Receiver(i, a) => ReceiverFrame(s, i, a);
      }
    }
  }

  /** While the forwarder is up the refresher is at work: every fourth step of it is a tick, with a sleep and a look
      at the flag before it, and a tick takes whatever the resolver returns. */
  lemma RefresherServes(cfg: Config, s: State, a: Act)
    requires Reachable(cfg, s) && s.running
    ensures !s.resolver.Off? && !s.resolver.Exited?
    ensures ResolverNext(cfg, s, a).Some? <==> a.Go? || (a.Resolved? && Refresher.TickIn(s.resolver) == 0)
    ensures ResolverNext(cfg, s, a).Some? ==>
              Refresher.TickIn(ResolverNext(cfg, s, a).value.resolver)
              == if Refresher.TickIn(s.resolver) == 0 then 3 else Refresher.TickIn(s.resolver) - 1
  {
    var run :| After(cfg, INITIAL, run) == Some(s);
    StartKeepsOrder(cfg, run);
  }
}
