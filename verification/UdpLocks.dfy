/**
 The lock of the UDP session table.  UdpMachine takes each region under the lock as one step; here a
 thread first takes the lock, then does what the region does, and releases it.  Runs with the lock are
 runs of UdpMachine, no thread waits for another one while it holds the lock, and waiting for the
 lock keeps nobody from going on.
 */
module UdpLocks {
  import opened Sockets
  import opened UdpHistory
  import opened UdpMachine
  import opened UdpSafety
  import opened UdpStop

  datatype Holder = Nobody | TheLoop | TheControl

  datatype Guarded = Guarded(s: State, lock: Holder)

  const START := Guarded(INITIAL, Nobody)

  datatype Move = LoopLocks | ControlLocks | Take(step: Step)

  /** Where the loop thread needs the lock: looking a client up, inserting a session, selecting. */
  predicate LoopNeeds(l: Loop) {
    l.Find? || l.Insert? || l.Select?
  }

  /** And the thread that calls Stop, for its own sweep. */
  predicate ControlNeeds(c: Control) {
    c.SelectAll?
  }

  /** A thread about to wait for another one to end. */
  predicate LoopJoins(l: Loop) {
    l.Sweep? && l.list != [] && l.stage.Join?
  }

  predicate ControlJoins(c: Control) {
    c.JoinLoop? || c.JoinResolver? || (c.SweepAll? && c.list != [] && c.stage.Join?)
  }

  ghost function GuardedNext(cfg: Config, g: Guarded, m: Move): Option<Guarded> {
    match m
    case LoopLocks =>
      if g.lock.Nobody? && LoopNeeds(g.s.loop) then Some(g.(lock := TheLoop)) else None
    case ControlLocks =>
      if g.lock.Nobody? && ControlNeeds(g.s.control) then Some(g.(lock := TheControl)) else None
    case Take(step) =>
      var next := Next(cfg, g.s, step);
      if next.None? then None
      else if step.Loop? && LoopNeeds(g.s.loop) then
        if g.lock.TheLoop? then Some(Guarded(next.value, Nobody)) else None
      else if step.Control? && ControlNeeds(g.s.control) then
        if g.lock.TheControl? then Some(Guarded(next.value, Nobody)) else None
      else Some(Guarded(next.value, g.lock))
  }

  ghost function AfterMoves(cfg: Config, g: Guarded, run: seq<Move>): Option<Guarded>
    decreases run
  {
    if run == [] then Some(g)
    else match GuardedNext(cfg, g, run[0])
      case None => None
      case Some(g') => AfterMoves(cfg, g', run[1..])
  }

  /** A holder of the lock stands before its region. */
  ghost predicate LockOk(cfg: Config, g: Guarded) {
    && Inv(cfg, g.s)
    && (g.lock.TheLoop? ==> LoopNeeds(g.s.loop))
    && (g.lock.TheControl? ==> ControlNeeds(g.s.control))
  }

  lemma ControlKeepsLoop(cfg: Config, s: State, a: Act)
    requires Inv(cfg, s) && ControlNext(cfg, s, a).Some? && LoopNeeds(s.loop)
    ensures ControlNext(cfg, s, a).value.loop == s.loop
  {
    if s.control.SelectAll? { ControlSelectFrame(cfg, s, a); }
  }

  lemma MoveKeepsLock(cfg: Config, g: Guarded, m: Move)
    requires LockOk(cfg, g) && GuardedNext(cfg, g, m).Some?
    ensures LockOk(cfg, GuardedNext(cfg, g, m).value)
  {
    if m.Take? {
      StepKeepsInv(cfg, g.s, m.step);
      match m.step {
        case Receiver(i, a) => ReceiverFrame(g.s, i, a);
        case Resolver(a) => ResolverFrame(cfg, g.s, a);
        case Control(a) => if LoopNeeds(g.s.loop) { ControlKeepsLoop(cfg, g.s, a); }
        case Loop(a) => LoopCacheFrame(cfg, g.s, a);
      }
    }
  }

  /** What the moves of a run do to the machine. */
  function StepsOf(run: seq<Move>): seq<Step> {
    if run == [] then [] else (if run[0].Take? then [run[0].step] else []) + StepsOf(run[1..])
  }

  /** A run with the lock is a run of the machine, and keeps the lock in order. */
  lemma {:induction false} RunIsMachineRun(cfg: Config, g: Guarded, run: seq<Move>)
    requires LockOk(cfg, g) && AfterMoves(cfg, g, run).Some?
    ensures LockOk(cfg, AfterMoves(cfg, g, run).value)
    ensures After(cfg, g.s, StepsOf(run)) == Some(AfterMoves(cfg, g, run).value.s)
    decreases run
  {
    if run != [] {
      var g1 := GuardedNext(cfg, g, run[0]).value;
      MoveKeepsLock(cfg, g, run[0]);
      RunIsMachineRun(cfg, g1, run[1..]);
      if run[0].Take? {
        assert StepsOf(run)[1..] == StepsOf(run[1..]);
      } else {
        assert StepsOf(run) == StepsOf(run[1..]);
      }
    }
  }

  predicate Holds(g: Guarded, step: Step) {
    (step.Loop? && g.lock.TheLoop?) || (step.Control? && g.lock.TheControl?)
  }

  lemma SimpleIgnoresTable(cfg: Config, s: State, a: Act, t: map<string, nat>)
    requires LoopNext(cfg, s, a).Some? && Simple(s) && !LoopNeeds(s.loop)
    ensures LoopNext(cfg, s.(table := t), a) == Some(LoopNext(cfg, s, a).value.(table := t))
  {
  }

  lemma ServingIgnoresTable(cfg: Config, s: State, a: Act, t: map<string, nat>)
    requires LoopNext(cfg, s, a).Some? && (s.loop.Opening? || s.loop.Start? || s.loop.Touch? || s.loop.Send?)
    ensures LoopNext(cfg, s.(table := t), a) == Some(LoopNext(cfg, s, a).value.(table := t))
  {
  }

  lemma SweepIgnoresTable(cfg: Config, s: State, a: Act, t: map<string, nat>)
    requires LoopNext(cfg, s, a).Some? && s.loop.Sweep?
    ensures LoopNext(cfg, s.(table := t), a) == Some(LoopNext(cfg, s, a).value.(table := t))
  {
    if s.loop.list != [] { CloseStepIgnoresTable(s, s.loop.list, s.loop.stage, t); }
  }

  lemma CloseStepIgnoresTable(s: State, list: seq<nat>, stage: Stage, t: map<string, nat>)
    requires list != [] && CloseStep(s, list, stage).Some?
    ensures var (s', list', stage') := CloseStep(s, list, stage).value;
      CloseStep(s.(table := t), list, stage) == Some((s'.(table := t), list', stage'))
  {
  }

  lemma ControlIgnoresTable(cfg: Config, s: State, a: Act, t: map<string, nat>)
    requires ControlNext(cfg, s, a).Some? && !ControlNeeds(s.control)
    ensures ControlNext(cfg, s.(table := t), a) == Some(ControlNext(cfg, s, a).value.(table := t))
  {
    if s.control.SweepAll? && s.control.list != [] {
      CloseStepIgnoresTable(s, s.control.list, s.control.stage, t);
    }
  }

  lemma OthersIgnoreTable(cfg: Config, s: State, step: Step, t: map<string, nat>)
    requires Next(cfg, s, step).Some? && (step.Receiver? || step.Resolver?)
    ensures Next(cfg, s.(table := t), step) == Some(Next(cfg, s, step).value.(table := t))
  {
  }

  /** A step of a thread that does not hold the lock neither looks at the table nor changes it. */
  lemma TableNeedsLock(cfg: Config, g: Guarded, step: Step, t: map<string, nat>)
    requires GuardedNext(cfg, g, Take(step)).Some? && !Holds(g, step)
    ensures Next(cfg, g.s.(table := t), step) == Some(Next(cfg, g.s, step).value.(table := t))
  {
    match step {
      case Loop(a) =>
        if g.s.loop.Sweep? {
          SweepIgnoresTable(cfg, g.s, a, t);
        } else if Simple(g.s) {
          SimpleIgnoresTable(cfg, g.s, a, t);
        } else {
          ServingIgnoresTable(cfg, g.s, a, t);
        }
      case Control(a) => ControlIgnoresTable(cfg, g.s, a, t);
      case _ => OthersIgnoreTable(cfg, g.s, step, t);
    }
  }

  /** No thread ever joins another one while it holds the lock of the table. */
  lemma NoJoinUnderLock(cfg: Config, run: seq<Move>)
    requires AfterMoves(cfg, START, run).Some?
    ensures var g := AfterMoves(cfg, START, run).value;
      && Reachable(cfg, g.s)
      && !(g.lock.TheLoop? && LoopJoins(g.s.loop)) && !(g.lock.TheControl? && ControlJoins(g.s.control))
  {
    InitialInv(cfg);
    RunIsMachineRun(cfg, START, run);
  }

  // Stop, with the lock.

  predicate Prompt(m: Move) {
    m.Take? ==> PromptAct(m.step.act)
  }

  /** While Stop is under way there is no deadlock, the lock included. */
  lemma NeverStuckByLock(cfg: Config, g: Guarded) returns (m: Move)
    requires LockOk(cfg, g) && Stopping(g.s)
    ensures GuardedNext(cfg, g, m).Some? && Prompt(m)
  {
    var step := NeverStuck(cfg, g.s);
    if step.Loop? && LoopNeeds(g.s.loop) && !g.lock.TheLoop? {
      m := LoopLocks;
    } else if step.Control? && ControlNeeds(g.s.control) && !g.lock.TheControl? {
      m := ControlLocks;
    } else {
      m := Take(step);
    }
  }

  function LockRank(g: Guarded): nat {
    2 * Rank(g.s) + if g.lock.Nobody? then 1 else 0
  }

  lemma MoveLowersRank(cfg: Config, g: Guarded, m: Move)
    requires LockOk(cfg, g) && Stopping(g.s) && GuardedNext(cfg, g, m).Some?
    ensures var g' := GuardedNext(cfg, g, m).value;
      LockRank(g') < LockRank(g) && (Stopping(g'.s) || g'.s.control.Stopped?)
  {
    if m.Take? { StepLowersRank(cfg, g.s, m.step); }
  }

  lemma PrefixMoves(cfg: Config, g: Guarded, run: seq<Move>, n: nat)
    requires run != [] && n < |run| && GuardedNext(cfg, g, run[0]).Some?
    ensures AfterMoves(cfg, g, run[..n + 1]) == AfterMoves(cfg, GuardedNext(cfg, g, run[0]).value, run[1..][..n])
  {
    assert run[..n + 1][1..] == run[1..][..n];
  }

  /** Stop returns with the lock, too: no run as long as the rank can avoid it. */
  lemma {:induction false} StopReturnsWithLock(cfg: Config, g: Guarded, run: seq<Move>)
    requires LockOk(cfg, g) && Stopping(g.s) && AfterMoves(cfg, g, run).Some? && |run| >= LockRank(g)
    ensures exists n :: 0 <= n <= |run| && AfterMoves(cfg, g, run[..n]).Some?
                    && AfterMoves(cfg, g, run[..n]).value.s.control.Stopped?
    decreases run
  {
    if run == [] {
      var m := NeverStuckByLock(cfg, g);
      MoveLowersRank(cfg, g, m);
    } else {
      var g1 := GuardedNext(cfg, g, run[0]).value;
      MoveLowersRank(cfg, g, run[0]);
      MoveKeepsLock(cfg, g, run[0]);
      if g1.s.control.Stopped? {
        PrefixMoves(cfg, g, run, 0);
      } else {
        StopReturnsWithLock(cfg, g1, run[1..]);
        var n: nat :| n <= |run[1..]| && AfterMoves(cfg, g1, run[1..][..n]).Some?
              && AfterMoves(cfg, g1, run[1..][..n]).value.s.control.Stopped?;
        PrefixMoves(cfg, g, run, n);
      }
    }
  }

  /** Stop, called in any state a run with the lock can reach, returns under every schedule. */
  lemma StopAlwaysReturns(cfg: Config, before: seq<Move>, run: seq<Move>)
    requires AfterMoves(cfg, START, before).Some? && Stopping(AfterMoves(cfg, START, before).value.s)
    requires AfterMoves(cfg, AfterMoves(cfg, START, before).value, run).Some?
    ensures var g := AfterMoves(cfg, START, before).value;
      && (|run| >= LockRank(g) ==>
            exists n :: 0 <= n <= |run| && AfterMoves(cfg, g, run[..n]).Some?
                        && AfterMoves(cfg, g, run[..n]).value.s.control.Stopped?)
      && (Stopping(AfterMoves(cfg, g, run).value.s) ==>
            exists m :: GuardedNext(cfg, AfterMoves(cfg, g, run).value, m).Some? && Prompt(m))
  {
    var g := AfterMoves(cfg, START, before).value;
    InitialInv(cfg);
    RunIsMachineRun(cfg, START, before);
    RunIsMachineRun(cfg, g, run);
    if |run| >= LockRank(g) { StopReturnsWithLock(cfg, g, run); }
    if Stopping(AfterMoves(cfg, g, run).value.s) {
      var m := NeverStuckByLock(cfg, AfterMoves(cfg, g, run).value);
    }
  }
}
