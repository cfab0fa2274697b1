/**
 The lock of the TCP session tables.  TcpMachine takes each region under the lock as one step; here a
 thread first takes the lock, then does what the region does, and releases it.  Schedules with the
 lock are schedules of TcpMachine, no thread waits for another one while it holds the lock, and
 waiting for the lock keeps nobody from going on.
 */
module TcpLocks {
  import opened Sockets
  import opened TcpCache
  import opened TcpMachine
  import opened TcpSafety
  import TcpStop
  import TcpTheorems

  datatype Holder = Nobody | TheAccept | TheControl

  datatype Guarded = Guarded(s: State, lock: Holder)

  const START := Guarded(INITIAL, Nobody)

  datatype Move = AcceptLocks | ControlLocks | Take(step: Step)

  /** Where the accept thread needs the lock: picking out finished sessions, inserting a session. */
  predicate AcceptNeeds(a: Accept) {
    a.Reap? || a.Insert?
  }

  /** And the thread that calls Stop: collecting the sessions, clearing the tables. */
  predicate ControlNeeds(c: Control) {
    c.Collect? || c.Clear?
  }

  /** A thread about to wait for another one to end. */
  predicate AcceptJoins(a: Accept) {
    a.Reaping? && a.list != []
  }

  predicate ControlJoins(c: Control) {
    c.JoinAccept? || c.JoinResolver? || (c.JoinSessions? && c.list != [])
  }

  ghost function GuardedNext(cfg: Config, g: Guarded, m: Move): Option<Guarded> {
    match m
    case AcceptLocks =>
      if g.lock.Nobody? && AcceptNeeds(g.s.accept) then Some(g.(lock := TheAccept)) else None
    case ControlLocks =>
      if g.lock.Nobody? && ControlNeeds(g.s.control) then Some(g.(lock := TheControl)) else None
    case Take(step) =>
      var next := Next(cfg, g.s, step);
      if next.None? then None
      else if step.Accept? && AcceptNeeds(g.s.accept) then
        if g.lock.TheAccept? then Some(Guarded(next.value, Nobody)) else None
      else if step.Control? && ControlNeeds(g.s.control) then
        if g.lock.TheControl? then Some(Guarded(next.value, Nobody)) else None
      else Some(Guarded(next.value, g.lock))
  }

  ghost function AfterMoves(cfg: Config, g: Guarded, run: seq<Move>): Option<Guarded>
    decreases run
  {
    if run == [] then Some(g)
    else match GuardedNext(cfg, g, run[0])
      case None => None
      case Some(g') => AfterMoves(cfg, g', run[1..])
  }

  /** A holder of the lock stands before its region. */
  ghost predicate LockOk(g: Guarded) {
    && Inv(g.s)
    && (g.lock.TheAccept? ==> AcceptNeeds(g.s.accept))
    && (g.lock.TheControl? ==> ControlNeeds(g.s.control))
  }

  lemma ControlKeepsAccept(cfg: Config, s: State, a: Act)
    requires Inv(s) && Next(cfg, s, Step.Control(a)).Some? && AcceptNeeds(s.accept)
    ensures Next(cfg, s, Step.Control(a)).value.accept == s.accept
  {
    if !Listening(s.control) { StopFrame(s, a); }
  }

  lemma MoveKeepsLock(cfg: Config, g: Guarded, m: Move)
    requires LockOk(g) && GuardedNext(cfg, g, m).Some?
    ensures LockOk(GuardedNext(cfg, g, m).value)
  {
    if m.Take? {
      StepKeepsInv(cfg, g.s, m.step);
      match m.step {
        case Worker(n) => WorkerSteps(g.s, n);
        case Resolver(a) => ResolverFrame(cfg, g.s, a);
        case Control(a) => if AcceptNeeds(g.s.accept) { ControlKeepsAccept(cfg, g.s, a); }
        case Accept(a) => AcceptKeepsControl(cfg, g.s, a);
      }
    }
  }

  /** What the moves of a run do to the machine. */
  function StepsOf(run: seq<Move>): seq<Step> {
    if run == [] then [] else (if run[0].Take? then [run[0].step] else []) + StepsOf(run[1..])
  }

  /** A run with the lock is a run of the machine, and keeps the lock in order. */
  lemma {:induction false} RunIsMachineRun(cfg: Config, g: Guarded, run: seq<Move>)
    requires LockOk(g) && AfterMoves(cfg, g, run).Some?
    ensures LockOk(AfterMoves(cfg, g, run).value)
    ensures After(cfg, g.s, StepsOf(run)) == Some(AfterMoves(cfg, g, run).value.s)
    decreases run
  {
    if run != [] {
      var g1 := GuardedNext(cfg, g, run[0]).value;
      MoveKeepsLock(cfg, g, run[0]);
      RunIsMachineRun(cfg, g1, run[1..]);
      if run[0].Take? {
        assert StepsOf(run)[1..] == StepsOf(run[1..]);
      } else {
        assert StepsOf(run) == StepsOf(run[1..]);
      }
    }
  }

  predicate Holds(g: Guarded, step: Step) {
    (step.Accept? && g.lock.TheAccept?) || (step.Control? && g.lock.TheControl?)
  }

  /** The same state with other tables. */
  function Swapped(s: State, t: map<nat, nat>, p: map<nat, string>): State {
    s.(table := t, peers := p)
  }

  lemma ReapingIgnoresTables(s: State, a: Act, t: map<nat, nat>, p: map<nat, string>)
    requires s.accept.Reaping? && ReapNext(s, a).Some?
    ensures ReapNext(Swapped(s, t, p), a) == Some(Swapped(ReapNext(s, a).value, t, p))
  {
  }

  lemma WaitingIgnoresTables(cfg: Config, s: State, a: Act, t: map<nat, nat>, p: map<nat, string>)
    requires !s.accept.Reap? && !s.accept.Reaping? && !HasClient(s.accept) && AcceptNext(cfg, s, a).Some?
    ensures AcceptNext(cfg, Swapped(s, t, p), a) == Some(Swapped(AcceptNext(cfg, s, a).value, t, p))
  {
  }

  lemma DiallingIgnoresTables(cfg: Config, s: State, a: Act, t: map<nat, nat>, p: map<nat, string>)
    requires HasClient(s.accept) && !s.accept.Insert? && AcceptNext(cfg, s, a).Some?
    ensures AcceptNext(cfg, Swapped(s, t, p), a) == Some(Swapped(AcceptNext(cfg, s, a).value, t, p))
  {
  }

  lemma AcceptIgnoresTables(cfg: Config, s: State, a: Act, t: map<nat, nat>, p: map<nat, string>)
    requires Next(cfg, s, Step.Accept(a)).Some? && !AcceptNeeds(s.accept)
    ensures Next(cfg, Swapped(s, t, p), Step.Accept(a)) == Some(Swapped(Next(cfg, s, Step.Accept(a)).value, t, p))
  {
    if s.accept.Reaping? {
      ReapingIgnoresTables(s, a, t, p);
    } else if HasClient(s.accept) {
      DiallingIgnoresTables(cfg, s, a, t, p);
    } else {
      WaitingIgnoresTables(cfg, s, a, t, p);
    }
  }

  lemma ListenIgnoresTables(cfg: Config, s: State, a: Act, t: map<nat, nat>, p: map<nat, string>)
    requires ListenNext(cfg, s, a).Some?
    ensures ListenNext(cfg, Swapped(s, t, p), a) == Some(Swapped(ListenNext(cfg, s, a).value, t, p))
  {
  }

  lemma StopIgnoresTables(s: State, a: Act, t: map<nat, nat>, p: map<nat, string>)
    requires StopNext(s, a).Some? && !ControlNeeds(s.control)
    ensures StopNext(Swapped(s, t, p), a) == Some(Swapped(StopNext(s, a).value, t, p))
  {
  }

  lemma ControlIgnoresTables(cfg: Config, s: State, a: Act, t: map<nat, nat>, p: map<nat, string>)
    requires Next(cfg, s, Step.Control(a)).Some? && !ControlNeeds(s.control)
    ensures Next(cfg, Swapped(s, t, p), Step.Control(a)) == Some(Swapped(Next(cfg, s, Step.Control(a)).value, t, p))
  {
    if Listening(s.control) { ListenIgnoresTables(cfg, s, a, t, p); } else { StopIgnoresTables(s, a, t, p); }
  }

  lemma OthersIgnoreTables(cfg: Config, s: State, step: Step, t: map<nat, nat>, p: map<nat, string>)
    requires Next(cfg, s, step).Some? && (step.Worker? || step.Resolver?)
    ensures Next(cfg, Swapped(s, t, p), step) == Some(Swapped(Next(cfg, s, step).value, t, p))
  {
  }

  /** A step of a thread that does not hold the lock neither looks at the two maps nor changes them. */
  lemma TablesNeedLock(cfg: Config, g: Guarded, step: Step, t: map<nat, nat>, p: map<nat, string>)
    requires GuardedNext(cfg, g, Take(step)).Some? && !Holds(g, step)
    ensures Next(cfg, Swapped(g.s, t, p), step) == Some(Swapped(Next(cfg, g.s, step).value, t, p))
  {
    match step {
      case Accept(a) => AcceptIgnoresTables(cfg, g.s, a, t, p);
      case Control(a) => ControlIgnoresTables(cfg, g.s, a, t, p);
      case _ => OthersIgnoreTables(cfg, g.s, step, t, p);
    }
  }

  /** No thread ever joins another one while it holds the lock of the tables. */
  lemma NoJoinUnderLock(cfg: Config, run: seq<Move>)
    requires AfterMoves(cfg, START, run).Some?
    ensures var g := AfterMoves(cfg, START, run).value;
      && Reachable(cfg, g.s)
      && !(g.lock.TheAccept? && AcceptJoins(g.s.accept)) && !(g.lock.TheControl? && ControlJoins(g.s.control))
  {
    RunIsMachineRun(cfg, START, run);
  }

  // Stop, with the lock.

  predicate Prompt(g: Guarded, m: Move) {
    m.Take? ==> TcpStop.Prompt(g.s, m.step)
  }

  ghost predicate CanGoOn(cfg: Config, g: Guarded) {
    exists m :: GuardedNext(cfg, g, m).Some? && Prompt(g, m)
  }

  /** The lock keeps nobody from going on. */
  lemma LockBlocksNobody(cfg: Config, g: Guarded)
    requires LockOk(g) && TcpStop.CanGoOn(cfg, g.s)
    ensures CanGoOn(cfg, g)
  {
    var step :| Next(cfg, g.s, step).Some? && TcpStop.Prompt(g.s, step);
    var m := if step.Accept? && AcceptNeeds(g.s.accept) && !g.lock.TheAccept? then AcceptLocks
             else if step.Control? && ControlNeeds(g.s.control) && !g.lock.TheControl? then ControlLocks
             else Take(step);
    assert GuardedNext(cfg, g, m).Some? && Prompt(g, m);
  }

  ghost predicate MoveAt(cfg: Config, schedule: nat -> Guarded, n: nat) {
    schedule(n + 1) == schedule(n) || exists m :: GuardedNext(cfg, schedule(n), m) == Some(schedule(n + 1))
  }

  predicate Changes(schedule: nat -> Guarded, n: nat) {
    schedule(n + 1) != schedule(n)
  }

  ghost predicate ChangesFrom(schedule: nat -> Guarded, n: nat) {
    exists m: nat :: m >= n && Changes(schedule, m)
  }

  /** A schedule does not stand still for ever while a thread can go on by itself. */
  ghost predicate Fair(cfg: Config, schedule: nat -> Guarded) {
    forall n: nat :: CanGoOn(cfg, schedule(n)) ==> ChangesFrom(schedule, n)
  }

  ghost predicate IsSchedule(cfg: Config, schedule: nat -> Guarded) {
    forall n: nat :: MoveAt(cfg, schedule, n)
  }

  function Machine(schedule: nat -> Guarded): nat -> State {
    (n: nat) => schedule(n).s
  }

  lemma {:induction false} LockStaysOk(cfg: Config, schedule: nat -> Guarded, n: nat)
    requires LockOk(schedule(0)) && IsSchedule(cfg, schedule)
    ensures LockOk(schedule(n))
  {
    if n > 0 {
      LockStaysOk(cfg, schedule, n - 1);
      assert MoveAt(cfg, schedule, n - 1);
      if schedule(n) != schedule(n - 1) {
        var m :| GuardedNext(cfg, schedule(n - 1), m) == Some(schedule(n));
        MoveKeepsLock(cfg, schedule(n - 1), m);
      }
    }
  }

  /** A region under the lock always leaves its mark on the state. */
  lemma RegionChanges(cfg: Config, s: State, step: Step)
    requires Next(cfg, s, step).Some?
    requires (step.Accept? && AcceptNeeds(s.accept)) || (step.Control? && ControlNeeds(s.control))
    ensures Next(cfg, s, step).value != s
  {
    if step.Control? {
      StopFrame(s, step.act);
    } else if s.accept.Reap? {
      ReapFrame(s, step.act);
    } else {
      InsertFrame(cfg, s, step.act);
    }
  }

  /** A move that changes no more than the lock takes it. */
  lemma OnlyLocking(cfg: Config, g: Guarded, m: Move)
    requires GuardedNext(cfg, g, m).Some? && GuardedNext(cfg, g, m).value != g
    requires GuardedNext(cfg, g, m).value.s == g.s
    ensures g.lock.Nobody? && !GuardedNext(cfg, g, m).value.lock.Nobody?
  {
    if m.Take? && ((m.step.Accept? && AcceptNeeds(g.s.accept)) || (m.step.Control? && ControlNeeds(g.s.control))) {
      RegionChanges(cfg, g.s, m.step);
    }
  }

  lemma {:induction false} FirstChange(schedule: nat -> Guarded, n: nat, m: nat) returns (j: nat)
    requires n <= m && Changes(schedule, m)
    ensures n <= j && schedule(j) == schedule(n) && Changes(schedule, j)
    decreases m - n
  {
    if Changes(schedule, n) {
      j := n;
    } else {
      j := FirstChange(schedule, n + 1, m);
    }
  }

  /** The next change of a fair schedule: of the machine's state, or else somebody has taken the lock. */
  lemma NextChange(cfg: Config, schedule: nat -> Guarded, n: nat) returns (j: nat)
    requires LockOk(schedule(n)) && IsSchedule(cfg, schedule) && Fair(cfg, schedule)
    requires TcpStop.CanGoOn(cfg, schedule(n).s)
    ensures n <= j && schedule(j) == schedule(n)
    ensures schedule(j + 1).s != schedule(j).s || (schedule(n).lock.Nobody? && !schedule(j + 1).lock.Nobody?)
  {
    LockBlocksNobody(cfg, schedule(n));
    assert ChangesFrom(schedule, n);
    var m: nat :| m >= n && Changes(schedule, m);
    j := FirstChange(schedule, n, m);
    assert MoveAt(cfg, schedule, j);
    var move :| GuardedNext(cfg, schedule(j), move) == Some(schedule(j + 1));
    if schedule(j + 1).s == schedule(j).s { OnlyLocking(cfg, schedule(j), move); }
  }

  lemma MachineMoves(cfg: Config, schedule: nat -> Guarded, n: nat)
    requires LockOk(schedule(0)) && IsSchedule(cfg, schedule) && Fair(cfg, schedule)
    requires TcpStop.CanGoOn(cfg, schedule(n).s)
    ensures TcpStop.MovesFrom(Machine(schedule), n)
  {
    LockStaysOk(cfg, schedule, n);
    var j := NextChange(cfg, schedule, n);
    if schedule(j + 1).s != schedule(j).s {
      assert TcpStop.Changes(Machine(schedule), j);
    } else {
      LockStaysOk(cfg, schedule, j + 1);
      var i := NextChange(cfg, schedule, j + 1);
      assert TcpStop.Changes(Machine(schedule), i);
    }
  }

  lemma MachineSteps(cfg: Config, schedule: nat -> Guarded, n: nat)
    requires MoveAt(cfg, schedule, n)
    ensures TcpStop.StepAt(cfg, Machine(schedule), n)
  {
    var g, g' := schedule(n), schedule(n + 1);
    if g' != g {
      var m :| GuardedNext(cfg, g, m) == Some(g');
      if m.Take? { assert Next(cfg, g.s, m.step) == Some(g'.s); }
    }
  }

  /** Stop, called in any state a run with the lock can reach, returns in every fair schedule of threads
      that take the lock and release it. */
  lemma StopAlwaysReturns(cfg: Config, before: seq<Move>, schedule: nat -> Guarded)
    requires AfterMoves(cfg, START, before) == Some(schedule(0)) && TcpStop.Stopping(schedule(0).s)
    requires IsSchedule(cfg, schedule) && Fair(cfg, schedule)
    requires forall n: nat :: TcpStop.Spare(Machine(schedule), n)
    ensures exists n :: n > 0 && schedule(n).s.control.Stopped?
  {
    var machine := Machine(schedule);
    RunIsMachineRun(cfg, START, before);
    forall n: nat ensures TcpStop.StepAt(cfg, machine, n) {
      assert MoveAt(cfg, schedule, n);
      MachineSteps(cfg, schedule, n);
    }
    forall n: nat | TcpStop.CanGoOn(cfg, machine(n)) ensures TcpStop.MovesFrom(machine, n) {
      MachineMoves(cfg, schedule, n);
    }
    TcpTheorems.StopAlwaysReturns(cfg, machine);
    var n :| n > 0 && machine(n).control.Stopped?;
    assert schedule(n).s.control.Stopped?;
  }
}
