/**
 Stop of a TCP forwarder terminates.  A resolver that is still resolving may lengthen the target
 list once more, so the measure is a pair: what the resolver has left, then what all the others have.
 */
module TcpStop {
  import opened Sockets
  import opened Ranks
  import opened Refresher
  import opened TcpMachine
  import opened TcpSafety
  import opened TcpCache

  predicate Stopping(s: State) {
    !s.control.Stopped? && !s.control.Trying? && !s.control.Candidate? && !s.control.Up?
  }

  function PhaseRank(p: Phase): nat {
    match p
    case Fresh => 6
    case Relaying => 5
    case HalfClosed => 4
    case Closed => 3
    case Finished => 2
    case Joined => 0
  }

  function SessionRank(z: Session): nat {
    PhaseRank(z.phase) + if z.stopping then 0 else 1
  }

  function AcceptRank(a: Accept, cached: nat): nat {
    match a
    case Off => 0
    case Exited => 0
    case Reaping(_, final) => if final then 1 else 22 + 2 * cached
    case Reap(final) => if final then 2 else 23 + 2 * cached
    case Top => 3
    case Failed => 4
    case Start(_) => 4
    case Drop(_) => 4
    case Insert(_, _, _) => 14
    case Connect(_, _, snap, i) => 16 + if i <= |snap| then 2 * (|snap| - i) else 0
    case Trial(_, _, snap, i, _) => 15 + if i <= |snap| then 2 * (|snap| - i) else 0
    case Choose(_, _) => 18 + 2 * cached
    case Refresh(_, _) => 17
    case Accepting(_) => 19 + 2 * cached
    case Have(_) => 20 + 2 * cached
    case Load => 21 + 2 * cached
  }

  function ControlRank(c: Control): nat {
    match c
    case ShutListen => 9
    case CloseListen => 8
    case ForgetListen => 7
    case JoinAccept => 6
    case JoinResolver => 5
    case Collect => 4
    case StopSessions(_, _) => 3
    case JoinSessions(_) => 2
    case Clear => 1
    case _ => 0
  }

  function Rest(s: State): nat {
    Total(SessionRank, s.sessions) + AcceptRank(s.accept, |s.cache|) + ControlRank(s.control)
  }

  predicate Lower(s: State, s': State) {
    || ResolverRank(s'.resolver) < ResolverRank(s.resolver)
    || (ResolverRank(s'.resolver) == ResolverRank(s.resolver) && Rest(s') < Rest(s))
  }

  lemma WorkerLowers(s: State, n: nat)
    requires WorkerNext(s, n).Some?
    ensures Lower(s, WorkerNext(s, n).value)
  {
    WorkerSteps(s, n);
    TotalUpdate(SessionRank, s.sessions, n, WorkerNext(s, n).value.sessions[n]);
  }

  lemma ResolverLowers(cfg: Config, s: State, a: Act)
    requires !s.running && ResolverNext(cfg, s, a).Some?
    ensures Lower(s, ResolverNext(cfg, s, a).value)
  {
  }

  lemma SimpleLowers(cfg: Config, s: State, a: Act)
    requires !s.running && s.cache != [] && Simple(s, a) && !s.accept.Refresh? && AcceptNext(cfg, s, a).Some?
    ensures var s' := AcceptNext(cfg, s, a).value;
      s'.cache == s.cache && AcceptRank(s'.accept, |s'.cache|) < AcceptRank(s.accept, |s.cache|)
  {
  }

  lemma SocketLowers(cfg: Config, s: State, a: Act)
    requires !Simple(s, a) && !s.accept.Insert? && !s.accept.Start? && !s.accept.Reap? && !s.accept.Reaping?
    requires AcceptNext(cfg, s, a).Some? && (s.accept.Trial? ==> s.accept.i < |s.accept.snap|)
    ensures var s' := AcceptNext(cfg, s, a).value;
      s'.cache == s.cache && AcceptRank(s'.accept, |s'.cache|) < AcceptRank(s.accept, |s.cache|)
  {
  }

  lemma InsertedLowers(s: State)
    requires s.accept.Insert?
    ensures Lower(s, Inserted(s))
  {
    assert Inserted(s).sessions[..|s.sessions|] == s.sessions;
  }

  lemma StartedLowers(s: State)
    requires s.accept.Start? && s.accept.n < |s.sessions| && s.sessions[s.accept.n].phase.Fresh?
    ensures Lower(s, Begun(s))
  {
    TotalUpdate(SessionRank, s.sessions, s.accept.n, s.sessions[s.accept.n].(phase := Relaying));
  }

  lemma AcceptLowers(cfg: Config, s: State, a: Act)
    requires Inv(s) && !s.running && s.cache != [] && !s.accept.Refresh?
    requires (s.accept.Trial? ==> s.accept.i < |s.accept.snap|) && Next(cfg, s, Step.Accept(a)).Some?
    ensures Lower(s, Next(cfg, s, Step.Accept(a)).value)
  {
    if s.accept.Reap? || s.accept.Reaping? {
      ReapLowers(s, a);
    } else if s.accept.Insert? {
      InsertFrame(cfg, s, a);
      InsertedLowers(s);
    } else if s.accept.Start? {
      StartFrame(cfg, s, a);
      assert PlaceOk(s, s.accept.n);
      StartedLowers(s);
    } else if Simple(s, a) {
      SimpleFrame(cfg, s, a);
      SimpleLowers(cfg, s, a);
    } else {
      SocketFrame(cfg, s, a);
      SocketLowers(cfg, s, a);
    }
  }

  lemma ReapJoinLowers(s: State)
    requires s.accept.Reaping? && s.accept.list != [] && s.accept.list[0] < |s.sessions|
    requires s.sessions[s.accept.list[0]].phase.Finished?
    ensures Lower(s, ReapJoined(s))
  {
    var n := s.accept.list[0];
    TotalUpdate(SessionRank, s.sessions, n, s.sessions[n].(phase := Joined));
  }

  lemma HeadIsFinished(s: State)
    requires AcceptOk(s) && PlacesOk(s) && s.accept.Reaping? && s.accept.list != []
    ensures s.accept.list[0] < |s.sessions| && s.sessions[s.accept.list[0]].phase.Finished?
  {
    assert s.accept.list[0] in s.accept.list;
    assert PlaceOk(s, s.accept.list[0]);
  }

  lemma ReapLowers(s: State, a: Act)
    requires AcceptOk(s) && PlacesOk(s) && (s.accept.Reap? || s.accept.Reaping?) && ReapNext(s, a).Some?
    ensures Lower(s, ReapNext(s, a).value)
  {
    ReapFrame(s, a);
    if s.accept.Reaping? && s.accept.list != [] {
      HeadIsFinished(s);
      ReapJoinLowers(s);
    } else if s.accept.Reap? {
      assert Rest(Reaped(s, a.order).(accept := Reaping(a.order, s.accept.final))) < Rest(s);
    }
  }

  lemma ListenLowers(cfg: Config, s: State, a: Act)
    requires Stopping(s) && ListenNext(cfg, s, a).Some?
    ensures Lower(s, ListenNext(cfg, s, a).value) && Stopping(ListenNext(cfg, s, a).value)
  {
  }

  lemma OneStoppedLowers(s: State)
    requires s.control.StopSessions? && s.control.todo != [] && s.control.todo[0] < |s.sessions|
    requires !s.sessions[s.control.todo[0]].stopping
    ensures Lower(s, OneStopped(s))
  {
    var n := s.control.todo[0];
    TotalUpdate(SessionRank, s.sessions, n, AskedToStop(s.sessions[n]));
  }

  lemma OneJoinedLowers(s: State)
    requires s.control.JoinSessions? && s.control.list != [] && s.control.list[0] < |s.sessions|
    requires s.sessions[s.control.list[0]].phase.Finished?
    ensures Lower(s, OneJoined(s))
  {
    var n := s.control.list[0];
    TotalUpdate(SessionRank, s.sessions, n, s.sessions[n].(phase := Joined));
  }

  lemma StopLowers(s: State, a: Act)
    requires Inv(s) && StopNext(s, a).Some?
    ensures Lower(s, StopNext(s, a).value)
    ensures Stopping(StopNext(s, a).value) || StopNext(s, a).value.control.Stopped?
  {
    StopFrame(s, a);
    if s.control.StopSessions? && s.control.todo != [] {
      assert s.control.todo[0] in s.control.todo;
      assert StopOk(s, s.control.todo[0]);
      OneStoppedLowers(s);
    } else if s.control.JoinSessions? && s.control.list != [] {
      assert s.control.list[0] in s.control.list;
      assert PlaceOk(s, s.control.list[0]);
      OneJoinedLowers(s);
    } else {
      PlainStopLowers(s, a);
    }
  }

  lemma PlainStopLowers(s: State, a: Act)
    requires StopNext(s, a).Some?
    requires !(s.control.StopSessions? && s.control.todo != []) && !(s.control.JoinSessions? && s.control.list != [])
    ensures Lower(s, StopNext(s, a).value)
    ensures Stopping(StopNext(s, a).value) || StopNext(s, a).value.control.Stopped?
  {
    StopFrame(s, a);
  }

  /** Every step taken while Stop is under way lowers the measure. */
  lemma StepLowers(cfg: Config, s: State, step: Step)
    requires Inv(s) && Cached(cfg, s) && Stopping(s) && Next(cfg, s, step).Some?
    ensures Lower(s, Next(cfg, s, step).value)
    ensures Stopping(Next(cfg, s, step).value) || Next(cfg, s, step).value.control.Stopped?
  {
    match step {
      case Control(a) => if Listening(s.control) { ListenLowers(cfg, s, a); } else { StopLowers(s, a); }
      case Accept(a) =>
        AcceptLowers(cfg, s, a);
        AcceptKeepsControl(cfg, s, a);
      case Resolver(a) =>
        ResolverLowers(cfg, s, a);
        ResolverFrame(cfg, s, a);
      case Worker(n) =>
        WorkerLowers(s, n);
        WorkerSteps(s, n);
    }
  }

  /** A step the forwarder can take by itself.  No client has to arrive, no socket or connection has to be
      made and no name resolved: such calls may fail instead (at `Trial`, `Go` is a connection made, and
      `Nothing` one that failed).  A resolver call under way does come back, if only with a failure:
      that, or a tick that is not due, is `Go` at `Ticking`.  A worker goes on to close its sockets once
      its session was shut down; that it then does is `TcpRelay.ShutSessionCloses`. */
  predicate Prompt(s: State, step: Step) {
    match step
    case Worker(n) => n < |s.sessions| && s.sessions[n].phase.Relaying? ==> s.sessions[n].shut
    case Accept(a) => !a.Accepted? && !a.Opened? && !a.Resolved? && !(s.accept.Trial? && a.Go?)
    case _ => !step.act.Opened? && !step.act.Resolved?
  }

  lemma SelectionExists(s: State, finishedOnly: bool) returns (order: seq<nat>)
    requires TableOk(s)
    ensures IsSelection(s, finishedOnly, order)
  {
    order := [];
    var i := 0;
    while i < |s.sessions|
      invariant 0 <= i <= |s.sessions|
      invariant forall a, b :: 0 <= a < b < |order| ==> order[a] != order[b]
      invariant forall n: nat :: n in order <==>
                  n < i && Listed(s, n) && (finishedOnly ==> s.sessions[n].phase.Finished?)
    {
      if Listed(s, i) && (finishedOnly ==> s.sessions[i].phase.Finished?) {
        order := order + [i];
      }
      i := i + 1;
    }
  }

  lemma AcceptCanStep(cfg: Config, s: State) returns (step: Step)
    requires Inv(s) && !s.accept.Off? && !s.accept.Exited? && !s.accept.Refresh? && s.nextId + 1 < U64
    ensures Next(cfg, s, step).Some? && Prompt(s, step) && step.Accept?
  {
    match s.accept {
      case Reap(_) =>
        var order := SelectionExists(s, true);
        step := Step.Accept(Chosen(order));
      case Reaping(list, _) =>
        if list != [] {
          assert list[0] in list;
          assert PlaceOk(s, list[0]);
        }
        step := Step.Accept(Go);
      case Accepting(_) => step := Step.Accept(Nothing);
      case Connect(_, _, snap, i) => step := Step.Accept(if i >= |snap| then Go else Nothing);
      case Trial(_, _, _, _, _) => step := Step.Accept(Nothing);
      case _ => step := Step.Accept(Go);
    }
  }

  /** A session in the way of Stop can always go on by itself. */
  lemma SessionCanStep(cfg: Config, s: State, n: nat) returns (step: Step)
    requires Inv(s) && n < |s.sessions| && InTable(s, n)
    requires var p := s.sessions[n].phase; p.HalfClosed? || (s.control.JoinSessions? && !p.Finished? && !p.Joined?)
    ensures Next(cfg, s, step).Some? && Prompt(s, step)
  {
    assert SessionOk(s.k, s.sessions[n]) && PlaceOk(s, n) && StopOk(s, n);
    step := Step.Worker(n);
  }

  lemma EndingCanStep(cfg: Config, s: State) returns (step: Step)
    requires Inv(s) && (s.control.Collect? || Ending(s))
    ensures Next(cfg, s, step).Some? && Prompt(s, step)
  {
    match s.control {
      case Collect =>
        var order := SelectionExists(s, false);
        step := Step.Control(Chosen(order));
      case StopSessions(todo, _) =>
        if todo == [] {
          step := Step.Control(Go);
        } else {
          assert todo[0] in todo;
          if s.sessions[todo[0]].phase.HalfClosed? {
            step := SessionCanStep(cfg, s, todo[0]);
          } else {
            step := Step.Control(Go);
          }
        }
      case JoinSessions(list) =>
        if list == [] {
          step := Step.Control(Go);
        } else {
          assert list[0] in list;
          assert PlaceOk(s, list[0]) && StopOk(s, list[0]);
          if s.sessions[list[0]].phase.Finished? {
            step := Step.Control(Go);
          } else {
            step := SessionCanStep(cfg, s, list[0]);
          }
        }
      case _ => step := Step.Control(Go);
    }
  }

  /** While Stop is under way there is no deadlock. */
  lemma NeverStuck(cfg: Config, s: State) returns (step: Step)
    requires Inv(s) && Stopping(s) && !s.accept.Refresh? && s.nextId + 1 < U64
    ensures Next(cfg, s, step).Some? && Prompt(s, step)
  {
    if s.control.JoinAccept? && !s.accept.Exited? {
      step := AcceptCanStep(cfg, s);
    } else if s.control.JoinResolver? && !s.resolver.Exited? {
      step := Step.Resolver(Go);
    } else if s.control.Collect? || Ending(s) {
      step := EndingCanStep(cfg, s);
    } else {
      step := Step.Control(Go);
    }
  }

  /** Between two states of a schedule one step is taken, or none: what the relay threads do inside a
      session is no step of this machine. */
  ghost predicate StepAt(cfg: Config, schedule: nat -> State, n: nat) {
    schedule(n + 1) == schedule(n) || Takes(cfg, schedule(n), schedule(n + 1))
  }

  ghost predicate Takes(cfg: Config, s: State, s': State) {
    exists step :: Next(cfg, s, step) == Some(s')
  }

  ghost predicate CanGoOn(cfg: Config, s: State) {
    exists step :: Next(cfg, s, step).Some? && Prompt(s, step)
  }

  predicate Changes(schedule: nat -> State, n: nat) {
    schedule(n + 1) != schedule(n)
  }

  ghost predicate MovesFrom(schedule: nat -> State, n: nat) {
    exists m: nat :: m >= n && Changes(schedule, m)
  }

  /** A schedule does not stand still for ever while a thread can go on by itself. */
  ghost predicate Fair(cfg: Config, schedule: nat -> State) {
    forall n: nat :: CanGoOn(cfg, schedule(n)) ==> MovesFrom(schedule, n)
  }

  lemma StepGoesOn(cfg: Config, s: State, s': State)
    requires Inv(s) && Cached(cfg, s) && Stopping(s) && Takes(cfg, s, s')
    ensures Inv(s') && Cached(cfg, s') && Lower(s, s') && (Stopping(s') || s'.control.Stopped?)
  {
    var step :| Next(cfg, s, step) == Some(s');
    StepLowers(cfg, s, step);
    StepKeepsInv(cfg, s, step);
    StepKeepsCached(cfg, s, step);
  }

  lemma {:induction false} FirstMove(schedule: nat -> State, n: nat, m: nat) returns (j: nat)
    requires n <= m && Changes(schedule, m)
    ensures n <= j && schedule(j) == schedule(n) && Changes(schedule, j)
    decreases m - n
  {
    if Changes(schedule, n) {
      j := n;
    } else {
      j := FirstMove(schedule, n + 1, m);
    }
  }

  /** The state after the next step taken in a fair schedule. */
  lemma NextMove(cfg: Config, schedule: nat -> State, i: nat) returns (j: nat)
    requires CanGoOn(cfg, schedule(i)) && (forall n: nat :: StepAt(cfg, schedule, n)) && Fair(cfg, schedule)
    ensures i < j && Takes(cfg, schedule(i), schedule(j))
  {
    assert MovesFrom(schedule, i);
    var m: nat :| m >= i && Changes(schedule, m);
    var n := FirstMove(schedule, i, m);
    assert StepAt(cfg, schedule, n);
    j := n + 1;
  }

  ghost predicate Spare(schedule: nat -> State, n: nat) {
    schedule(n).nextId + 1 < U64
  }

  /** In every fair schedule of a forwarder that is stopping, Stop returns after finitely many steps. */
  lemma {:induction false} StopReturns(cfg: Config, schedule: nat -> State, i: nat)
    requires Inv(schedule(i)) && Cached(cfg, schedule(i)) && Stopping(schedule(i))
    requires (forall n: nat :: StepAt(cfg, schedule, n)) && Fair(cfg, schedule) && forall n: nat :: Spare(schedule, n)
    ensures exists n :: n > i && schedule(n).control.Stopped?
    decreases ResolverRank(schedule(i).resolver), Rest(schedule(i))
  {
    assert Spare(schedule, i);
    var step := NeverStuck(cfg, schedule(i));
    assert CanGoOn(cfg, schedule(i));
    var j := NextMove(cfg, schedule, i);
    StepGoesOn(cfg, schedule(i), schedule(j));
    if !schedule(j).control.Stopped? {
      StopReturns(cfg, schedule, j);
    }
  }
}
