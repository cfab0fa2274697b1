/**
 Stop terminates.  From the moment Stop clears the running flag, every step of every thread
 lowers a rank, and until Stop has returned some thread can always take a step (a receive call
 comes back at the latest with its timeout, a send or socket call with a failure).
 */
module UdpStop {
  import opened Sockets
  import opened Endpoints
  import opened Ranks
  import opened Refresher
  import opened UdpMachine
  import opened UdpSafety
  import opened UdpHistory

  predicate Stopping(s: State) {
    !s.control.Stopped? && !s.control.Trying? && !s.control.Candidate? && !s.control.Up?
  }

  /** Steps a receiver thread has left, and a weight for a session that is not done with. */
  function SessionRank(z: Session): nat {
    match z.thread
    case Joined => 0
    case Exited => 6
    case Marking => 7
    case Top => 8
    case Touching => 9
    case NotStarted => 9
    case Replying(_, _) => 10
    case Blocked(_) => 11
    case Have(_) => 12
    case Load => 13
  }

  function StageRank(stage: Stage): nat {
    match stage
    case Shutdown => 3
    case Close => 2
    case Invalidate => 1
    case Join => 0
  }

  function LoopRank(l: Loop): nat {
    match l
    case Off => 0
    case Exited => 0
    case Sweep(_, stage, force) => (if force then 1 else 7) + StageRank(stage)
    case Select(force) => if force then 5 else 11
    case Failed => 6
    case Top => 6
    case Init => 7
    case Maybe => 12
    case Send(_, _, _) => 13
    case Touch(_, _, _) => 14
    case Start(_, _, _) => 15
    case Insert(_, _, _, _, _, _, _) => 25
    case Opening(_, _, _) => 26
    case Snapshot(_, _) => 27
    case Find(_, _) => 28
    case Blocked(_) => 29
    case Have(_) => 30
    case Load => 31
  }

  function ControlRank(c: Control): nat {
    match c
    case ShutListen => 7
    case CloseListen => 6
    case ForgetListen => 5
    case JoinLoop => 4
    case JoinResolver => 3
    case SelectAll => 2
    case SweepAll(_, _) => 1
    case _ => 0
  }

  function Rank(s: State): nat {
    Total(SessionRank, s.sessions) + LoopRank(s.loop) + ResolverRank(s.resolver) + ControlRank(s.control)
  }

  lemma ReceiverLowersRank(s: State, i: nat, a: Act)
    requires !s.running && ReceiverNext(s, i, a).Some?
    ensures Rank(ReceiverNext(s, i, a).value) < Rank(s)
  {
    ReceiverFrame(s, i, a);
    TotalUpdate(SessionRank, s.sessions, i, ReceiverNext(s, i, a).value.sessions[i]);
  }

  lemma SimpleLowersRank(cfg: Config, s: State, a: Act)
    requires !s.running && Simple(s) && LoopNext(cfg, s, a).Some?
    ensures LoopRank(LoopNext(cfg, s, a).value.loop) < LoopRank(s.loop)
  {
  }

  lemma HeadLowersRank(s: State)
    requires s.loop.Sweep? && s.loop.list != [] && SweepNext(s).Some?
    requires s.loop.list[0] < |s.sessions| && !s.sessions[s.loop.list[0]].thread.NotStarted?
    ensures Rank(SweepNext(s).value) < Rank(s)
  {
    CloseStepFrame(s);
    if s.loop.stage.Invalidate? {
      ForgetKeepsTotal(s, s.loop.list[0]);
    } else if s.loop.stage.Join? {
      JoinLowersTotal(s, s.loop.list[0]);
    }
  }

  lemma ForgetKeepsTotal(s: State, n: nat)
    requires n < |s.sessions|
    ensures Total(SessionRank, With(s, n, s.sessions[n].(handle := INVALID)).sessions) == Total(SessionRank, s.sessions)
  {
    TotalUpdate(SessionRank, s.sessions, n, s.sessions[n].(handle := INVALID));
  }

  lemma JoinLowersTotal(s: State, n: nat)
    requires n < |s.sessions| && s.sessions[n].thread.Exited?
    ensures Total(SessionRank, With(s, n, s.sessions[n].(thread := Joined)).sessions) + 6
         == Total(SessionRank, s.sessions)
  {
    TotalUpdate(SessionRank, s.sessions, n, s.sessions[n].(thread := Joined));
  }

  lemma SweepLowersRank(cfg: Config, s: State, a: Act)
    requires s.loop.Sweep? && LoopNext(cfg, s, a).Some?
    requires s.loop.list != [] ==> s.loop.list[0] < |s.sessions| && !s.sessions[s.loop.list[0]].thread.NotStarted?
    requires s.loop.list == [] ==> s.loop.stage.Shutdown?
    ensures Rank(LoopNext(cfg, s, a).value) < Rank(s)
  {
    SweepFrame(cfg, s, a);
    if s.loop.list != [] { HeadLowersRank(s); }
  }

  lemma SelectedTotal(s: State, now: int, order: seq<nat>)
    ensures Total(SessionRank, Selected(s, now, order).sessions) == Total(SessionRank, s.sessions)
  {
    TotalIgnores(SessionRank, s.sessions, Selected(s, now, order).sessions);
  }

  lemma SelectedSame(cfg: Config, s: State, a: Act)
    requires s.loop.Select? && LoopNext(cfg, s, a).Some?
    ensures var s' := LoopNext(cfg, s, a).value;
      && s'.control == s.control && s'.resolver == s.resolver
      && Total(SessionRank, s'.sessions) == Total(SessionRank, s.sessions)
      && s'.loop == Sweep(a.order, Shutdown, s.loop.force)
  {
    SelectFrame(cfg, s, a);
    SelectedTotal(s, a.now, a.order);
  }

  lemma RankFollowsLoop(s: State, s': State)
    requires s'.control == s.control && s'.resolver == s.resolver
    requires Total(SessionRank, s'.sessions) == Total(SessionRank, s.sessions)
    requires LoopRank(s'.loop) < LoopRank(s.loop)
    ensures Rank(s') < Rank(s)
  {
  }

  lemma SelectLowersRank(cfg: Config, s: State, a: Act)
    requires s.loop.Select? && LoopNext(cfg, s, a).Some?
    ensures Rank(LoopNext(cfg, s, a).value) < Rank(s)
  {
    SelectedSame(cfg, s, a);
    RankFollowsLoop(s, LoopNext(cfg, s, a).value);
  }

  lemma StartLowersRank(cfg: Config, s: State, a: Act)
    requires s.loop.Start? && s.loop.i < |s.sessions| && s.sessions[s.loop.i].thread.NotStarted?
    requires LoopNext(cfg, s, a).Some?
    ensures Rank(LoopNext(cfg, s, a).value) < Rank(s)
  {
    StartFrame(cfg, s, a);
    TotalUpdate(SessionRank, s.sessions, s.loop.i, s.sessions[s.loop.i].(thread := Receiver.Top));
  }

  lemma TouchOrSendLowersRank(cfg: Config, s: State, a: Act)
    requires (s.loop.Touch? || s.loop.Send?) && LoopNext(cfg, s, a).Some?
    ensures Rank(LoopNext(cfg, s, a).value) < Rank(s)
  {
    var s', i := LoopNext(cfg, s, a).value, s.loop.i;
    TouchOrSendFrame(cfg, s, a);
    SameThread(s.sessions[i], s'.sessions[i]);
    TotalUpdate(SessionRank, s.sessions, i, s'.sessions[i]);
  }

  lemma SameThread(z: Session, z': Session)
    requires z'.(lastActive := 0, marked := true, up := z.up) == z.(lastActive := 0, marked := true)
    ensures SessionRank(z') == SessionRank(z)
  {
    assert z'.(lastActive := 0, marked := true, up := z.up).thread == z'.thread;
  }

  lemma InsertGrows(cfg: Config, s: State, a: Act)
    requires s.loop.Insert? && LoopNext(cfg, s, a).Some?
    ensures var s' := LoopNext(cfg, s, a).value;
      && s'.control == s.control && s'.resolver == s.resolver
      && ((s'.loop.Touch? && s'.sessions == s.sessions)
          || (s'.loop.Start? && |s'.sessions| == |s.sessions| + 1 && s'.sessions[..|s.sessions|] == s.sessions
              && s'.sessions[|s.sessions|].thread.NotStarted?))
  {
  }

  lemma TotalGrows(sessions: seq<Session>, sessions': seq<Session>)
    requires |sessions'| == |sessions| + 1 && sessions'[..|sessions|] == sessions
    ensures Total(SessionRank, sessions') == Total(SessionRank, sessions) + SessionRank(sessions'[|sessions|])
  {
  }

  lemma InsertLowersRank(cfg: Config, s: State, a: Act)
    requires s.loop.Insert? && LoopNext(cfg, s, a).Some?
    ensures Rank(LoopNext(cfg, s, a).value) < Rank(s)
  {
    var s' := LoopNext(cfg, s, a).value;
    InsertGrows(cfg, s, a);
    if s'.loop.Start? { TotalGrows(s.sessions, s'.sessions); }
  }

  lemma OpeningLowersRank(cfg: Config, s: State, a: Act)
    requires s.loop.Opening? && LoopNext(cfg, s, a).Some?
    ensures Rank(LoopNext(cfg, s, a).value) < Rank(s)
  {
  }

  lemma StartIsFirst(cfg: Config, s: State)
    requires Inv(cfg, s) && s.loop.Start?
    ensures s.loop.i < |s.sessions| && s.sessions[s.loop.i].thread.NotStarted?
  {
    assert PlaceOf(s, s.loop.i) == Starting;
    assert SessionOk(s.sessions[s.loop.i], Starting, s.k);
  }

  lemma LoopLowersRank(cfg: Config, s: State, a: Act)
    requires Inv(cfg, s) && !s.running && LoopNext(cfg, s, a).Some?
    ensures Rank(LoopNext(cfg, s, a).value) < Rank(s)
  {
    if Simple(s) {
      SimpleFrame(cfg, s, a);
      SimpleLowersRank(cfg, s, a);
    } else if s.loop.Start? {
      StartIsFirst(cfg, s);
      StartLowersRank(cfg, s, a);
    } else if s.loop.Touch? || s.loop.Send? {
      TouchOrSendLowersRank(cfg, s, a);
    } else if s.loop.Select? {
      SelectLowersRank(cfg, s, a);
    } else if s.loop.Sweep? {
      if s.loop.list != [] { HeadIsStarted(cfg, s); }
      SweepLowersRank(cfg, s, a);
    } else if s.loop.Insert? {
      InsertLowersRank(cfg, s, a);
    } else {
      OpeningLowersRank(cfg, s, a);
    }
  }

  lemma ResolverLowersRank(cfg: Config, s: State, a: Act)
    requires !s.running && ResolverNext(cfg, s, a).Some?
    ensures Rank(ResolverNext(cfg, s, a).value) < Rank(s)
  {
    ResolverFrame(cfg, s, a);
  }

  lemma ControlSelectLowersRank(cfg: Config, s: State, a: Act)
    requires s.control.SelectAll? && s.table == map[] && ControlNext(cfg, s, a).Some?
    ensures Rank(ControlNext(cfg, s, a).value) < Rank(s) && Stopping(ControlNext(cfg, s, a).value)
  {
    ControlSelectsNothing(cfg, s, a);
  }

  lemma ControlSelectsNothing(cfg: Config, s: State, a: Act)
    requires s.control.SelectAll? && s.table == map[] && ControlNext(cfg, s, a).Some?
    ensures a.Chosen? && ControlNext(cfg, s, a).value == s.(clock := a.now, control := SweepAll([], Shutdown))
  {
    ControlSelectFrame(cfg, s, a);
    NothingToSelect(cfg, s, a.now, a.order);
  }

  lemma ControlLowersRank(cfg: Config, s: State, a: Act)
    requires Inv(cfg, s) && Stopping(s) && ControlNext(cfg, s, a).Some?
    ensures Rank(ControlNext(cfg, s, a).value) < Rank(s)
    ensures Stopping(ControlNext(cfg, s, a).value) || ControlNext(cfg, s, a).value.control.Stopped?
  {
    if s.control.SelectAll? { ControlSelectLowersRank(cfg, s, a); } else { ControlRankFrame(cfg, s, a); }
  }

  lemma ControlRankFrame(cfg: Config, s: State, a: Act)
    requires Stopping(s) && !s.control.SelectAll? && (s.control.SweepAll? ==> s.control.list == [])
    requires ControlNext(cfg, s, a).Some?
    ensures var s' := ControlNext(cfg, s, a).value;
      && s'.sessions == s.sessions && ControlRank(s'.control) < ControlRank(s.control)
      && LoopRank(s'.loop) <= LoopRank(s.loop) && ResolverRank(s'.resolver) <= ResolverRank(s.resolver)
      && (Stopping(s') || s'.control.Stopped?)
  {
  }

  /** Every step taken while Stop is under way lowers the rank. */
  lemma StepLowersRank(cfg: Config, s: State, step: Step)
    requires Inv(cfg, s) && Stopping(s) && Next(cfg, s, step).Some?
    ensures Rank(Next(cfg, s, step).value) < Rank(s)
    ensures Stopping(Next(cfg, s, step).value) || Next(cfg, s, step).value.control.Stopped?
  {
    match step {
      case Control(a) => ControlLowersRank(cfg, s, a);
      case Loop(a) =>
        LoopLowersRank(cfg, s, a);
        LoopCacheFrame(cfg, s, a);
      case Resolver(a) =>
        ResolverLowersRank(cfg, s, a);
        ResolverFrame(cfg, s, a);
      case Receiver(i, a) =>
        ReceiverLowersRank(s, i, a);
        ReceiverFrame(s, i, a);
    }
  }

  // Somebody can always go on.

  /** What nobody can hold back: a receive call that comes back with its timeout, a call that fails,
      a clock reading.  A resolver call under way does come back, if only with a failure: that, or a
      tick that is not due, is `Go` at `Ticking`. */
  predicate PromptAct(a: Act) {
    !a.Got? && !a.Opened? && !a.Resolved?
  }

  /** The sessions to close, in some order. */
  lemma SelectionExists(cfg: Config, s: State, force: bool, now: int) returns (order: seq<nat>)
    ensures IsSelection(cfg, s, force, now, order)
  {
    var n := |s.sessions|;
    order := [];
    var i := 0;
    while i < n
      invariant 0 <= i <= n
      invariant forall a, b :: 0 <= a < b < |order| ==> order[a] != order[b]
      invariant forall j: nat :: j in order <==> j < i && Listed(s, j) && Due(cfg, s.sessions[j], force, now)
    {
      if Listed(s, i) && Due(cfg, s.sessions[i], force, now) {
        order := order + [i];
      }
      i := i + 1;
    }
  }

  lemma ReceiverCanStep(s: State, i: nat) returns (a: Act)
    requires i < |s.sessions| && 0 <= s.clock && Clock.IsTime(s.clock)
    requires !s.sessions[i].thread.NotStarted? && !s.sessions[i].thread.Exited? && !s.sessions[i].thread.Joined?
    ensures ReceiverNext(s, i, a).Some? && PromptAct(a)
  {
    match s.sessions[i].thread {
      case Blocked(_) => a := Nothing(false);
      case Replying(_, _) => a := Sent(-1);
      case Touching => a := Now(s.clock);
      case _ => a := Go;
    }
  }

  lemma NoneMade(snap: seq<Endpoint>, made: seq<bool>)
    requires |snap| == |made| && forall i :: 0 <= i < |made| ==> !made[i]
    ensures Pick(snap, made).None?
  {
  }

  lemma LoopCanStep(cfg: Config, s: State) returns (step: Step)
    requires Inv(cfg, s) && !s.loop.Off? && !s.loop.Exited?
    ensures Next(cfg, s, step).Some? && PromptAct(step.act)
    ensures step.Loop? || (s.loop.Sweep? && s.loop.list != [] && step.Receiver? && step.i == s.loop.list[0])
  {
    if s.loop.Sweep? && s.loop.list != [] && s.loop.stage.Join? {
      step := JoinCanStep(cfg, s);
    } else if s.loop.Select? {
      var order := SelectionExists(cfg, s, s.loop.force, s.clock);
      step := Step.Loop(Chosen(s.clock, order));
    } else if s.loop.Opening? {
      var made := seq(|s.loop.snap|, _ => false);
      NoneMade(s.loop.snap, made);
      step := Step.Loop(NoSocket(made));
    } else if s.loop.Sweep? {
      if s.loop.list != [] { HeadIsStarted(cfg, s); }
      step := Step.Loop(Go);
    } else {
      step := PlainCanStep(cfg, s);
    }
  }

  lemma PlainCanStep(cfg: Config, s: State) returns (step: Step)
    requires Clock.IsTime(s.clock) && !s.loop.Off? && !s.loop.Exited?
    requires !s.loop.Sweep? && !s.loop.Select? && !s.loop.Opening?
    requires s.loop.Start? || s.loop.Touch? || s.loop.Send? ==> s.loop.i < |s.sessions|
    ensures Next(cfg, s, step).Some? && PromptAct(step.act) && step.Loop?
  {
    match s.loop {
      case Blocked(_) => step := Step.Loop(Nothing(false));
      case Send(_, _, _) => step := Step.Loop(Sent(-1));
      case Init => step := Step.Loop(Now(s.clock));
      case Touch(_, _, _) => step := Step.Loop(Now(s.clock));
      case Insert(_, _, _, _, _, _, _) => step := Step.Loop(Now(s.clock));
      case Maybe => step := Step.Loop(Now(s.clock));
      case _ => step := Step.Loop(Go);
    }
  }

  /** A join waits only for a receiver that can still move. */
  lemma JoinCanStep(cfg: Config, s: State) returns (step: Step)
    requires Inv(cfg, s) && s.loop.Sweep? && s.loop.list != [] && s.loop.stage.Join?
    ensures Next(cfg, s, step).Some? && PromptAct(step.act)
    ensures step.Loop? || (step.Receiver? && step.i == s.loop.list[0])
  {
    var n := s.loop.list[0];
    assert n in s.loop.list;
    assert PlaceOf(s, n) == Forgotten && SessionOk(s.sessions[n], Forgotten, s.k);
    if s.sessions[n].thread.Exited? {
      step := Step.Loop(Go);
    } else {
      var a := ReceiverCanStep(s, n);
      step := Step.Receiver(n, a);
    }
  }

  lemma ControlCanStep(cfg: Config, s: State) returns (step: Step)
    requires Inv(cfg, s) && Stopping(s) && !s.control.JoinLoop? && !s.control.JoinResolver?
    ensures Next(cfg, s, step).Some? && PromptAct(step.act)
  {
    if s.control.SelectAll? {
      var order := SelectionExists(cfg, s, true, s.clock);
      step := Step.Control(Chosen(s.clock, order));
    } else {
      step := Step.Control(Go);
    }
  }

  /** While Stop is under way there is no deadlock. */
  lemma NeverStuck(cfg: Config, s: State) returns (step: Step)
    requires Inv(cfg, s) && Stopping(s)
    ensures Next(cfg, s, step).Some? && PromptAct(step.act)
  {
    if s.control.JoinLoop? && !s.loop.Exited? {
      step := LoopCanStep(cfg, s);
    } else if s.control.JoinResolver? && !s.resolver.Exited? {
      step := Step.Resolver(Go);
    } else if s.control.JoinLoop? || s.control.JoinResolver? {
      step := Step.Control(Go);
    } else {
      step := ControlCanStep(cfg, s);
    }
  }

  /** No schedule can keep Stop from returning: every run longer than the rank passes a state in
      which it has. */
  lemma {:induction false} StopReturns(cfg: Config, s: State, run: seq<Step>)
    requires Inv(cfg, s) && Stopping(s) && After(cfg, s, run).Some? && |run| >= Rank(s)
    ensures exists n :: 0 <= n <= |run| && After(cfg, s, run[..n]).Some?
                    && After(cfg, s, run[..n]).value.control.Stopped?
    decreases run
  {
    if run == [] {
      var step := NeverStuck(cfg, s);
      StepLowersRank(cfg, s, step);
    } else {
      var s1 := Next(cfg, s, run[0]).value;
      StepLowersRank(cfg, s, run[0]);
      StepKeepsInv(cfg, s, run[0]);
      if s1.control.Stopped? {
        PrefixSteps(cfg, s, run, 0);
      } else {
        StopReturns(cfg, s1, run[1..]);
        var n: nat :| n <= |run[1..]| && After(cfg, s1, run[1..][..n]).Some?
              && After(cfg, s1, run[1..][..n]).value.control.Stopped?;
        PrefixSteps(cfg, s, run, n);
      }
    }
  }

  lemma PrefixSteps(cfg: Config, s: State, run: seq<Step>, n: nat)
    requires run != [] && n < |run| && Next(cfg, s, run[0]).Some?
    ensures After(cfg, s, run[..n + 1]) == After(cfg, Next(cfg, s, run[0]).value, run[1..][..n])
  {
    assert run[..n + 1][1..] == run[1..][..n];
  }
}
