/**
 The UDP loop keeps serving.  While the forwarder is up the loop waits on the listening socket for
 whatever comes, takes every answer, and comes back to the receive call after boundedly many steps;
 between two returns of that call it reads the clock for a sweep exactly once, so an overdue session
 is gone by the next return.
 */
module UdpPace {
  import opened Endpoints
  import opened Ranks
  import opened Sockets
  import opened UdpMachine
  import opened UdpSafety
  import opened UdpHistory
  import opened UdpOrder
  import opened UdpTheorems
  import opened UdpEviction

  /** A return of the loop's receive call. */
  predicate IsReturn(step: Step) {
    step.Loop? && (step.act.Got? || step.act.Nothing?)
  }

  /** A reading of the clock by MaybeCleanup. */
  predicate IsReading(s: State, step: Step) {
    s.loop.Maybe? && step.Loop? && step.act.Now?
  }

  /** Between a return and the reading that goes with it. */
  predicate Owing(l: Loop) {
    l.Failed? || InHand(l).Some? || l.Maybe?
  }

  /** Between that reading and the next return. */
  predicate Even(l: Loop) {
    || l.Top? || l.Load? || l.Have? || l.Blocked?
    || (l.Select? && !l.force) || (l.Sweep? && !l.force)
  }

  // One reading between two returns.

  /** The forwarder is up at every moment of the run, and no receive call of the loop returns in it. */
  ghost predicate Waits(cfg: Config, s: State, run: seq<Step>)
    decreases |run|
  {
    && s.running
    && (run != [] ==>
          && !IsReturn(run[0])
          && Next(cfg, s, run[0]).Some? && Waits(cfg, Next(cfg, s, run[0]).value, run[1..]))
  }

  ghost function Readings(cfg: Config, s: State, run: seq<Step>): nat
    decreases |run|
  {
    if run == [] then 0
    else
      (if IsReading(s, run[0]) then 1 else 0)
      + match Next(cfg, s, run[0]) case None => 0 case Some(s') => Readings(cfg, s', run[1..])
  }

  lemma LoopPays(cfg: Config, s: State, a: Act)
    requires s.running && LoopNext(cfg, s, a).Some? && !IsReturn(Step.Loop(a)) && (Owing(s.loop) || Even(s.loop))
    ensures var l' := LoopNext(cfg, s, a).value.loop;
      if Even(s.loop) || IsReading(s, Step.Loop(a)) then Even(l') else Owing(l')
  {
    if s.loop.Sweep? { SweepFrame(cfg, s, a); }
  }

  lemma OthersPay(cfg: Config, s: State, step: Step)
    requires Inv(cfg, s) && Next(cfg, s, step).Some? && !step.Loop? && s.running && Next(cfg, s, step).value.running
    ensures Next(cfg, s, step).value.loop == s.loop
  {
    match step {
      case Control(a) =>
      case Resolver(a) => ResolverFrame(cfg, s, a);
      case Receiver(i, a) => ReceiverFrame(s, i, a);
    }
  }

  /** Readings owed. */
  function Debt(l: Loop): nat {
    if Owing(l) then 1 else 0
  }

  predicate AtWork(l: Loop) {
    Owing(l) || Even(l)
  }

  lemma StepPays(cfg: Config, s: State, step: Step)
    requires Inv(cfg, s) && Next(cfg, s, step).Some? && s.running && Next(cfg, s, step).value.running
    requires !IsReturn(step) && AtWork(s.loop)
    ensures var s' := Next(cfg, s, step).value;
      Inv(cfg, s') && AtWork(s'.loop) && Debt(s.loop) == Debt(s'.loop) + if IsReading(s, step) then 1 else 0
  {
    StepKeepsInv(cfg, s, step);
    if step.Loop? { LoopPays(cfg, s, step.act); } else { OthersPay(cfg, s, step); }
  }

  lemma {:induction false} RunPays(cfg: Config, s: State, run: seq<Step>)
    requires Inv(cfg, s) && After(cfg, s, run).Some? && Waits(cfg, s, run) && AtWork(s.loop)
    ensures Debt(s.loop) == Debt(After(cfg, s, run).value.loop) + Readings(cfg, s, run)
    decreases run
  {
    if run != [] {
      StepPays(cfg, s, run[0]);
      RunPays(cfg, Next(cfg, s, run[0]).value, run[1..]);
    }
  }

  lemma ReturnOwes(cfg: Config, s: State, step: Step)
    requires IsReturn(step) && Next(cfg, s, step).Some?
    ensures s.loop.Blocked? && Owing(Next(cfg, s, step).value.loop)
  {
  }

  /** Between two consecutive returns of the receive call, with the forwarder up from the first on, the
      loop reads the clock for a sweep exactly once. */
  lemma OneReadingPerReturn(cfg: Config, s: State, first: Step, run: seq<Step>, second: Step)
    requires Reachable(cfg, s) && IsReturn(first) && Next(cfg, s, first).Some?
    requires var s1 := Next(cfg, s, first).value; After(cfg, s1, run).Some? && Waits(cfg, s1, run)
    requires IsReturn(second) && Next(cfg, After(cfg, Next(cfg, s, first).value, run).value, second).Some?
    ensures Readings(cfg, Next(cfg, s, first).value, run) == 1
  {
    var s1 := Next(cfg, s, first).value;
    ReachableIsGood(cfg, s);
    StepKeepsInv(cfg, s, first);
    ReturnOwes(cfg, s, first);
    ReturnOwes(cfg, After(cfg, s1, run).value, second);
    RunPays(cfg, s1, run);
  }

  // Overdue sessions.

  /** A session overdue since moment `e` is still to be swept: no sweep began after `e`, or one is about to
      look; once a receive call has returned 1000 ms after `e`, the loop is on its way to that sweep. */
  predicate Pending(s: State, e: int, late: bool) {
    && !s.loop.Init? && (s.loop.Select? || s.lastCleanup <= e)
    && (late ==> s.clock >= e + 1000 && (s.loop.Select? || Owing(s.loop)))
  }

  lemma MaybeKeepsPending(cfg: Config, s: State, a: Act, e: int, late: bool)
    requires Inv(cfg, s) && s.loop.Maybe? && LoopNext(cfg, s, a).Some? && Pending(s, e, late)
    ensures Pending(LoopNext(cfg, s, a).value, e, late)
  {
    Clock.NoWrap(a.now, s.lastCleanup);
  }

  lemma SelectKeepsPending(cfg: Config, s: State, a: Act, c: string, i: nat, e: int, late: bool)
    requires Reachable(cfg, s) && Inv(cfg, s) && s.loop.Select? && LoopNext(cfg, s, a).Some? && Pending(s, e, late)
    requires Bound(s, c, i) && Bound(LoopNext(cfg, s, a).value, c, i)
    requires s.sessions[i].marked || SilentAt(cfg, s.sessions[i], e)
    ensures Pending(LoopNext(cfg, s, a).value, e, late)
  {
    BindingLasts(cfg, s, Step.Loop(a), c, i);
    SelectFrame(cfg, s, a);
  }

  lemma ElsewhereKeepsPending(cfg: Config, s: State, a: Act, e: int, late: bool)
    requires !s.loop.Maybe? && !s.loop.Select? && LoopNext(cfg, s, a).Some? && Pending(s, e, late)
    ensures Pending(LoopNext(cfg, s, a).value, e, late)
  {
    LoopElsewhere(cfg, s, a);
    if late { LoopStaysOwing(cfg, s, a); }
  }

  lemma LoopStaysOwing(cfg: Config, s: State, a: Act)
    requires Owing(s.loop) && !s.loop.Maybe? && LoopNext(cfg, s, a).Some?
    ensures Owing(LoopNext(cfg, s, a).value.loop) || LoopNext(cfg, s, a).value.loop.Select?
  {
  }

  lemma OthersKeepPending(cfg: Config, s: State, step: Step, c: string, i: nat, e: int, late: bool)
    requires Inv(cfg, s) && Next(cfg, s, step).Some? && !step.Loop? && Bound(s, c, i) && Pending(s, e, late)
    ensures Pending(Next(cfg, s, step).value, e, late)
  {
    StepKeepsInv(cfg, s, step);
    match step {
      case Receiver(j, a) => ReceiverFrame(s, j, a);
      case Resolver(a) => ResolverFrame(cfg, s, a);
      case Control(a) => ControlElsewhere(cfg, s, a);
    }
  }

  lemma StepKeepsPending(cfg: Config, s: State, step: Step, c: string, i: nat, e: int, late: bool)
    requires Reachable(cfg, s) && Inv(cfg, s) && Next(cfg, s, step).Some? && Pending(s, e, late)
    requires Bound(s, c, i) && Bound(Next(cfg, s, step).value, c, i)
    requires s.sessions[i].marked || SilentAt(cfg, s.sessions[i], e)
    ensures Pending(Next(cfg, s, step).value, e, late)
  {
    if !step.Loop? {
      OthersKeepPending(cfg, s, step, c, i, e, late);
    } else if s.loop.Maybe? {
      MaybeKeepsPending(cfg, s, step.act, e, late);
    } else if s.loop.Select? {
      SelectKeepsPending(cfg, s, step.act, c, i, e, late);
    } else {
      ElsewhereKeepsPending(cfg, s, step.act, e, late);
    }
  }

  lemma {:induction false} RunKeepsPending(cfg: Config, s: State, run: seq<Step>, c: string, i: nat, e: int, late: bool)
    requires Reachable(cfg, s) && After(cfg, s, run).Some? && Bound(s, c, i) && Bound(After(cfg, s, run).value, c, i)
    requires Pending(s, e, late)
    requires s.sessions[i].marked || SilentAt(cfg, After(cfg, s, run).value.sessions[i], e)
    ensures Pending(After(cfg, s, run).value, e, late)
    decreases |run|
  {
    if run != [] {
      var most, last := run[..|run| - 1], run[|run| - 1];
      MostAndLast(run);
      RunSplits(cfg, s, most, last);
      BeforeLast(cfg, s, most, last, c, i);
      RunKeepsPending(cfg, s, most, c, i, e, late);
      StepKeepsPending(cfg, After(cfg, s, most).value, last, c, i, e, late);
    }
  }

  /** A session in the table at the end of a run was there before, no more marked and no older. */
  lemma {:induction false} RunBinds(cfg: Config, s: State, run: seq<Step>, c: string, i: nat)
    requires Reachable(cfg, s) && After(cfg, s, run).Some? && i < |s.sessions| && Bound(After(cfg, s, run).value, c, i)
    ensures var t := After(cfg, s, run).value;
      && Bound(s, c, i) && s.sessions[i].lastActive <= t.sessions[i].lastActive
      && (s.sessions[i].marked ==> t.sessions[i].marked)
    decreases |run|
  {
    ReachableIsGood(cfg, s);
    if run != [] {
      var s' := Next(cfg, s, run[0]).value;
      StepContinues(cfg, s, run[0]);
      StepIsReachable(cfg, s, run[0]);
      RunBinds(cfg, s', run[1..], c, i);
      BindingIsOld(cfg, s, run[0], c, i);
      StampGrows(cfg, s, run[0], i);
      assert SameRecord(s.sessions[i], s'.sessions[i]);
    }
  }

  lemma StepIsReachable(cfg: Config, s: State, step: Step)
    requires Reachable(cfg, s) && Next(cfg, s, step).Some?
    ensures Reachable(cfg, Next(cfg, s, step).value)
  {
    RunSplits(cfg, s, [], step);
    RunIsReachable(cfg, s, [] + [step]);
  }

  /** The late return itself. */
  lemma LateReturn(cfg: Config, s: State, before: seq<Step>, first: Step, c: string, i: nat, e: int)
    requires Reachable(cfg, s) && s.clock <= e && i < |s.sessions| && After(cfg, s, before).Some?
    requires var t := After(cfg, s, before).value;
      && t.clock >= e + 1000 && IsReturn(first) && Next(cfg, t, first).Some? && Bound(t, c, i)
      && (s.sessions[i].marked || SilentAt(cfg, t.sessions[i], e))
    ensures Pending(Next(cfg, After(cfg, s, before).value, first).value, e, true)
  {
    var start :| After(cfg, INITIAL, start) == Some(s);
    ReachableIsGood(cfg, s);
    RunBinds(cfg, s, before, c, i);
    BoundIsPastInit(cfg, start);
    RunKeepsPending(cfg, s, before, c, i, e, false);
    ReturnPends(cfg, After(cfg, s, before).value, first, e);
  }

  lemma ReturnPends(cfg: Config, t: State, first: Step, e: int)
    requires IsReturn(first) && Next(cfg, t, first).Some? && Pending(t, e, false) && t.clock >= e + 1000
    ensures Pending(Next(cfg, t, first).value, e, true)
  {
    ReturnOwes(cfg, t, first);
  }

  /** A session marked, or silent for longer than the timeout, at moment `e`: take a return of the receive
      call 1000 ms after `e` or later.  By the next return the session is out of the table.  Nothing is
      taken for granted about the clock readings in between. */
  lemma OverdueIsGoneByNextReturn(cfg: Config, s: State, before: seq<Step>, first: Step, run: seq<Step>,
          second: Step, c: string, i: nat, e: int)
    requires Reachable(cfg, s) && i < |s.sessions| && s.clock <= e && After(cfg, s, before).Some?
    requires var t := After(cfg, s, before).value;
      && t.clock >= e + 1000 && IsReturn(first) && Next(cfg, t, first).Some?
      && After(cfg, Next(cfg, t, first).value, run).Some?
    requires var t := After(cfg, Next(cfg, After(cfg, s, before).value, first).value, run).value;
      && IsReturn(second) && Next(cfg, t, second).Some? && i < |t.sessions|
      && (s.sessions[i].marked || SilentAt(cfg, t.sessions[i], e))
    ensures !Bound(After(cfg, Next(cfg, After(cfg, s, before).value, first).value, run).value, c, i)
  {
    var t := After(cfg, s, before).value;
    var u := Next(cfg, t, first).value;
    ReachableIsGood(cfg, s);
    RunIsReachable(cfg, s, before);
    RunContinues(cfg, s, before);
    StepIsReachable(cfg, t, first);
    if Bound(After(cfg, u, run).value, c, i) {
      assert SameRecord(s.sessions[i], t.sessions[i]);
      BoundBefore(cfg, t, first, run, c, i);
      LateReturn(cfg, s, before, first, c, i, e);
      RunKeepsPending(cfg, u, run, c, i, e, true);
      ReturnOwes(cfg, After(cfg, u, run).value, second);
    }
  }

  lemma BoundBefore(cfg: Config, t: State, first: Step, run: seq<Step>, c: string, i: nat)
    requires Reachable(cfg, t) && Next(cfg, t, first).Some? && i < |t.sessions|
    requires After(cfg, Next(cfg, t, first).value, run).Some?
    requires Bound(After(cfg, Next(cfg, t, first).value, run).value, c, i)
    ensures var u := Next(cfg, t, first).value; var v := After(cfg, u, run).value;
      && Bound(t, c, i) && Bound(u, c, i)
      && t.sessions[i].lastActive <= u.sessions[i].lastActive <= v.sessions[i].lastActive
      && (t.sessions[i].marked ==> u.sessions[i].marked)
  {
    var u := Next(cfg, t, first).value;
    ReachableIsGood(cfg, t);
    StepIsReachable(cfg, t, first);
    StepContinues(cfg, t, first);
    assert SameRecord(t.sessions[i], u.sessions[i]);
    RunBinds(cfg, u, run, c, i);
    BindingIsOld(cfg, t, first, c, i);
    StampGrows(cfg, t, first, i);
  }

  // The loop serves.

  /** While the forwarder is up the loop is at work, and the number it reads is that of the listener. */
  predicate Tuned(s: State) {
    s.running ==>
      && !s.loop.Off? && !s.loop.Exited? && ((s.loop.Select? || s.loop.Sweep?) ==> !s.loop.force)
      && (s.loop.Have? ==> s.loop.h == s.listen)
      && (s.loop.Blocked? ==> s.loop.on == Some(s.listenSock))
  }

  lemma LoopStaysTuned(cfg: Config, s: State, a: Act)
    requires Tuned(s) && LoopNext(cfg, s, a).Some? && (s.running ==> Names(s.k, s.listen, s.listenSock))
    ensures Tuned(LoopNext(cfg, s, a).value)
  {
    if s.loop.Select? { SelectFrame(cfg, s, a); }
    if s.loop.Sweep? { SweepFrame(cfg, s, a); }
  }

  lemma ControlStaysTuned(cfg: Config, s: State, a: Act)
    requires Tuned(s) && ControlOk(s) && ControlNext(cfg, s, a).Some?
    ensures Tuned(ControlNext(cfg, s, a).value)
  {
    if s.control.SelectAll? { ControlSelectFrame(cfg, s, a); }
  }

  lemma StepStaysTuned(cfg: Config, s: State, step: Step)
    requires Inv(cfg, s) && Tuned(s) && Next(cfg, s, step).Some?
    ensures Tuned(Next(cfg, s, step).value)
  {
    match step {
      case Loop(a) => LoopStaysTuned(cfg, s, a);
      case Control(a) => ControlStaysTuned(cfg, s, a);
      case Resolver(a) => ResolverFrame(cfg, s, a);
      case Receiver(i, a) => ReceiverFrame(s, i, a);
    }
  }

  lemma {:induction false} RunStaysTuned(cfg: Config, s: State, run: seq<Step>)
    requires Inv(cfg, s) && Tuned(s) && After(cfg, s, run).Some?
    ensures Tuned(After(cfg, s, run).value)
    decreases run
  {
    if run != [] {
      StepKeepsInv(cfg, s, run[0]);
      StepStaysTuned(cfg, s, run[0]);
      RunStaysTuned(cfg, Next(cfg, s, run[0]).value, run[1..]);
    }
  }

  lemma LoopIsTuned(cfg: Config, s: State)
    requires Reachable(cfg, s)
    ensures Tuned(s)
  {
    var run :| After(cfg, INITIAL, run) == Some(s);
    RunStaysTuned(cfg, INITIAL, run);
  }

  /** An answer the environment may give at the point where the loop is. */
  ghost predicate MayAnswer(cfg: Config, s: State, a: Act) {
    match s.loop
    case Off => false
    case Exited => false
    case Init => a.Now? && Tick(s, a.now)
    case Insert(_, _, _, _, _, _, _) => a.Now? && Tick(s, a.now)
    case Touch(_, _, _) => a.Now? && Tick(s, a.now)
    case Maybe => a.Now? && Tick(s, a.now)
    case Blocked(_) => (a.Got? && a.data != []) || a.Nothing?
    case Opening(_, _, snap) =>
      || (a.NoSocket? && |a.made| == |snap| && !Fitting(snap, a.made))
      || (a.Opened? && |a.made| == |snap| && Fitting(snap, a.made) && Free(s.k, a.h))
    case Send(_, _, p) => a.Sent? && a.n <= |p|
    case Select(force) => a.Chosen? && Tick(s, a.now) && IsSelection(cfg, s, force, a.now, a.order)
    case Sweep(list, stage, _) =>
      a.Go? && (list != [] && stage.Join? ==> list[0] < |s.sessions| && s.sessions[list[0]].thread.Exited?)
    case _ => a.Go?
  }

  predicate Fitting(snap: seq<Endpoint>, made: seq<bool>)
    requires |snap| == |made|
  {
    exists k :: 0 <= k < |snap| && made[k] && snap[k].addressLength <= 128
  }

  /** The sessions the loop is working on are there to be worked on. */
  predicate Equipped(s: State) {
    && (s.loop.Blocked? ==> s.loop.on.Some?)
    && (s.loop.Start? || s.loop.Touch? ==> s.loop.i < |s.sessions|)
    && (s.loop.Send? ==> s.loop.i < |s.sessions| && Lookup(s.k, s.sessions[s.loop.i].handle).Some?)
    && (s.loop.Sweep? && s.loop.list != [] ==>
          s.loop.list[0] < |s.sessions| && !s.sessions[s.loop.list[0]].thread.NotStarted?)
  }

  lemma LoopIsEquipped(cfg: Config, s: State)
    requires Reachable(cfg, s) && s.running
    ensures Equipped(s)
    ensures s.loop.Blocked? ==> s.loop.on == Some(s.listenSock) && IsOpen(s.k, s.listenSock)
  {
    ReachableIsGood(cfg, s);
    LoopIsTuned(cfg, s);
    if s.loop.Start? || s.loop.Touch? || s.loop.Send? {
      assert Listed(s, s.loop.i);
      assert SessionOk(s.sessions[s.loop.i], PlaceOf(s, s.loop.i), s.k);
    } else if s.loop.Sweep? && s.loop.list != [] {
      HeadIsStarted(cfg, s);
    }
  }

  lemma AnswerIsTaken(cfg: Config, s: State, a: Act)
    requires Equipped(s) && MayAnswer(cfg, s, a) && !s.loop.Sweep?
    ensures LoopNext(cfg, s, a).Some?
  {
  }

  lemma SweepGoesOn(cfg: Config, s: State, a: Act)
    requires Equipped(s) && MayAnswer(cfg, s, a) && s.loop.Sweep?
    ensures LoopNext(cfg, s, a).Some?
  {
  }

  /** The loop waits on the listening socket, and takes every answer: any datagram of any client, any
      timeout, any socket, any reading of the clock and any outcome of a send. */
  lemma EveryAnswerIsTaken(cfg: Config, s: State, a: Act)
    requires Reachable(cfg, s) && s.running && MayAnswer(cfg, s, a)
    ensures LoopNext(cfg, s, a).Some?
    ensures s.loop.Blocked? ==> s.loop.on == Some(s.listenSock) && IsOpen(s.k, s.listenSock)
  {
    LoopIsEquipped(cfg, s);
    if s.loop.Sweep? { SweepGoesOn(cfg, s, a); } else { AnswerIsTaken(cfg, s, a); }
  }

  // The loop comes back.

  /** Steps of the loop until it waits for a datagram again. */
  function Distance(l: Loop, sessions: nat): nat {
    match l
    case Off => 0
    case Exited => 0
    case Blocked(_) => 0
    case Have(_) => 1
    case Load => 2
    case Top => 3
    case Init => 4
    case Sweep(list, stage, _) => if list == [] then 4 else 4 * |list| + 1 + UdpStop.StageRank(stage)
    case Select(_) => 4 * sessions + 5
    case Maybe => 4 * sessions + 6
    case Failed => 4 * sessions + 7
    case Send(_, _, _) => 4 * sessions + 7
    case Touch(_, _, _) => 4 * sessions + 8
    case Start(_, _, _) => 4 * sessions + 9
    case Insert(_, _, _, _, _, _, _) => 4 * sessions + 14
    case Opening(_, _, _) => 4 * sessions + 15
    case Snapshot(_, _) => 4 * sessions + 16
    case Find(_, _) => 4 * sessions + 17
  }

  lemma SelectComesBack(cfg: Config, s: State, a: Act)
    requires s.loop.Select? && LoopNext(cfg, s, a).Some?
    ensures var s' := LoopNext(cfg, s, a).value; Distance(s'.loop, |s'.sessions|) < Distance(s.loop, |s.sessions|)
  {
    SelectFrame(cfg, s, a);
    forall i | i in a.order ensures i < |s.sessions| {
      assert Listed(s, i);
    }
    FewIndices(a.order, |s.sessions|);
  }

  lemma SweepComesBack(cfg: Config, s: State, a: Act)
    requires s.loop.Sweep? && !s.loop.force && LoopNext(cfg, s, a).Some? && Equipped(s)
    ensures var s' := LoopNext(cfg, s, a).value; Distance(s'.loop, |s'.sessions|) < Distance(s.loop, |s.sessions|)
  {
    SweepFrame(cfg, s, a);
    if s.loop.list != [] { CloseStepFrame(s); }
  }

  lemma ElsewhereComesBack(cfg: Config, s: State, a: Act)
    requires s.running && !s.loop.Select? && !s.loop.Sweep? && !s.loop.Blocked? && LoopNext(cfg, s, a).Some?
    ensures var s' := LoopNext(cfg, s, a).value; Distance(s'.loop, |s'.sessions|) < Distance(s.loop, |s.sessions|)
  {
  }

  lemma StepComesBack(cfg: Config, s: State, a: Act)
    requires Reachable(cfg, s) && s.running && LoopNext(cfg, s, a).Some? && !IsReturn(Step.Loop(a))
    ensures var s' := LoopNext(cfg, s, a).value; Distance(s'.loop, |s'.sessions|) < Distance(s.loop, |s.sessions|)
  {
    LoopIsTuned(cfg, s);
    LoopIsEquipped(cfg, s);
    if s.loop.Select? {
      SelectComesBack(cfg, s, a);
    } else if s.loop.Sweep? {
      SweepComesBack(cfg, s, a);
    } else {
      ElsewhereComesBack(cfg, s, a);
    }
  }

  lemma OthersKeepDistance(cfg: Config, s: State, step: Step)
    requires Inv(cfg, s) && Next(cfg, s, step).Some? && !step.Loop? && s.running && Next(cfg, s, step).value.running
    ensures var s' := Next(cfg, s, step).value; s'.loop == s.loop && |s'.sessions| == |s.sessions|
  {
    OthersPay(cfg, s, step);
    match step {
      case Control(a) => UdpHistory.ControlFrame(cfg, s, a);
      case Resolver(a) => ResolverFrame(cfg, s, a);
      case Receiver(i, a) => ReceiverFrame(s, i, a);
    }
  }

  function LoopSteps(run: seq<Step>): nat {
    if run == [] then 0 else (if run[0].Loop? then 1 else 0) + LoopSteps(run[1..])
  }

  /** While the forwarder is up, the loop has only boundedly many steps to take before its receive call
      returns again, whatever the others do in between, and it is never stuck on the way: it, or the
      receiver of a session it is closing, has a step that waits for no datagram. */
  lemma {:induction false} LoopComesBack(cfg: Config, s: State, run: seq<Step>) returns (step: Step)
    requires Reachable(cfg, s) && After(cfg, s, run).Some? && Waits(cfg, s, run)
    ensures var t := After(cfg, s, run).value;
      && LoopSteps(run) + Distance(t.loop, |t.sessions|) <= Distance(s.loop, |s.sessions|)
      && Next(cfg, t, step).Some? && UdpStop.PromptAct(step.act)
      && (step.Loop? || (t.loop.Sweep? && t.loop.list != [] && step.Receiver? && step.i == t.loop.list[0]))
    decreases run
  {
    ReachableIsGood(cfg, s);
    if run != [] {
      var s' := Next(cfg, s, run[0]).value;
      StepIsReachable(cfg, s, run[0]);
      if run[0].Loop? { StepComesBack(cfg, s, run[0].act); } else { OthersKeepDistance(cfg, s, run[0]); }
      step := LoopComesBack(cfg, s', run[1..]);
    } else {
      LoopIsTuned(cfg, s);
      step := UdpStop.LoopCanStep(cfg, s);
    }
  }
}
