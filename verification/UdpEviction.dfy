/**
 How long an overdue session can stay in the table.  The loop reads the clock once per iteration in
 MaybeCleanup (src/net/forwarder.cpp:475, 508, 644-651); if these readings are at most `gap`
 milliseconds apart, a session that is marked, or has been silent for longer than the timeout, is
 gone less than the cleanup interval plus one gap later.
 */
module UdpEviction {
  import opened UdpMachine
  import opened UdpSafety
  import opened UdpHistory
  import opened UdpTheorems
  import opened Sockets

  /** Client `c` has session `i`. */
  predicate Bound(s: State, c: string, i: nat) {
    c in s.table && s.table[c] == i && i < |s.sessions|
  }

  /** The clock reading of MaybeCleanup, if the step is one; otherwise the reading before. */
  function Reading(s: State, step: Step, before: int): int {
    if s.loop.Maybe? && step.Loop? && step.act.Now? then step.act.now else before
  }

  /** The last reading of a run; `before` is the last one before the run. */
  ghost function LastReading(cfg: Config, s: State, run: seq<Step>, before: int): int
    decreases |run|
  {
    if run == [] then before
    else
      var n := |run| - 1;
      var last := LastReading(cfg, s, run[..n], before);
      match After(cfg, s, run[..n])
      case None => last
      case Some(t) => Reading(t, run[n], last)
  }

  /** Readings are at most `gap` apart. */
  ghost predicate Paced(cfg: Config, s: State, run: seq<Step>, before: int, gap: int)
    decreases |run|
  {
    run != [] ==>
      && Paced(cfg, s, run[..|run| - 1], before, gap)
      && LastReading(cfg, s, run, before) - LastReading(cfg, s, run[..|run| - 1], before) <= gap
  }

  /** Silent for longer than the timeout at moment `e`. */
  predicate SilentAt(cfg: Config, z: Session, e: int) {
    cfg.idleSeconds > 0 && e - z.lastActive > 1000 * cfg.idleSeconds
  }

  // Single steps.

  lemma LoopElsewhere(cfg: Config, s: State, a: Act)
    requires LoopNext(cfg, s, a).Some? && !s.loop.Init? && !s.loop.Maybe? && !s.loop.Select?
    ensures var s' := LoopNext(cfg, s, a).value;
      && s'.lastCleanup == s.lastCleanup && !s'.loop.Init? && s.clock <= s'.clock
  {
    if s.loop.Sweep? { SweepFrame(cfg, s, a); }
  }

  lemma ControlElsewhere(cfg: Config, s: State, a: Act)
    requires Inv(cfg, s) && ControlNext(cfg, s, a).Some?
    ensures var s' := ControlNext(cfg, s, a).value;
      && s'.lastCleanup == s.lastCleanup && s.clock <= s'.clock && s'.table == s.table
      && (s'.loop == s.loop || s'.loop.Off? || (s'.loop.Init? && s.control.Candidate?))
  {
    if s.control.SelectAll? {
      ControlSelectFrame(cfg, s, a);
      NothingToSelect(cfg, s, a.now, a.order);
    }
  }

  /** The loop starts with an empty table. */
  lemma InitIsEmpty(cfg: Config, s: State, step: Step)
    requires Inv(cfg, s) && (s.loop.Init? ==> s.table == map[]) && Next(cfg, s, step).Some?
    ensures Next(cfg, s, step).value.loop.Init? ==> Next(cfg, s, step).value.table == map[]
  {
    match step {
      case Receiver(i, a) => ReceiverFrame(s, i, a);
      case Resolver(a) => ResolverFrame(cfg, s, a);
      case Control(a) => ControlElsewhere(cfg, s, a);
      case Loop(a) => NeverInit(cfg, s, a);
    }
  }

  lemma NeverInit(cfg: Config, s: State, a: Act)
    requires LoopNext(cfg, s, a).Some?
    ensures !LoopNext(cfg, s, a).value.loop.Init?
  {
    if !s.loop.Init? && !s.loop.Maybe? {
      if s.loop.Select? { SelectFrame(cfg, s, a); } else { LoopElsewhere(cfg, s, a); }
    }
  }

  lemma {:induction false} BoundIsPastInit(cfg: Config, run: seq<Step>)
    requires After(cfg, INITIAL, run).Some?
    ensures var s := After(cfg, INITIAL, run).value; s.loop.Init? ==> s.table == map[]
    decreases |run|
  {
    if run != [] {
      var most, last := run[..|run| - 1], run[|run| - 1];
      assert run == most + [last];
      RunSplits(cfg, INITIAL, most, last);
      BoundIsPastInit(cfg, most);
      ReachableIsGood(cfg, After(cfg, INITIAL, most).value);
      InitIsEmpty(cfg, After(cfg, INITIAL, most).value, last);
    }
  }

  /** A session that has left the table never comes back: what a step binds anew is a new session. */
  lemma BindingIsOld(cfg: Config, s: State, step: Step, c: string, i: nat)
    requires Inv(cfg, s) && Next(cfg, s, step).Some? && i < |s.sessions|
    requires Bound(Next(cfg, s, step).value, c, i)
    ensures Bound(s, c, i)
  {
    match step {
      case Receiver(i, a) => ReceiverFrame(s, i, a);
      case Resolver(a) => ResolverFrame(cfg, s, a);
      case Control(a) => ControlElsewhere(cfg, s, a);
      case Loop(a) => LoopBindsNew(cfg, s, a, c, i);
    }
  }

  lemma LoopBindsNew(cfg: Config, s: State, a: Act, c: string, i: nat)
    requires LoopNext(cfg, s, a).Some? && i < |s.sessions| && Bound(LoopNext(cfg, s, a).value, c, i)
    ensures Bound(s, c, i)
  {
    if s.loop.Select? {
      SelectFrame(cfg, s, a);
    } else if s.loop.Sweep? {
      SweepFrame(cfg, s, a);
    }
  }

  lemma StampGrows(cfg: Config, s: State, step: Step, i: nat)
    requires Inv(cfg, s) && Next(cfg, s, step).Some? && i < |s.sessions|
    ensures i < |Next(cfg, s, step).value.sessions|
    ensures s.sessions[i].lastActive <= Next(cfg, s, step).value.sessions[i].lastActive
  {
    match step {
      case Receiver(i, a) => ReceiverFrame(s, i, a);
      case Resolver(a) => ResolverFrame(cfg, s, a);
      case Control(a) => UdpHistory.ControlFrame(cfg, s, a);
      case Loop(a) => LoopStampGrows(cfg, s, a, i);
    }
  }

  lemma LoopStampGrows(cfg: Config, s: State, a: Act, i: nat)
    requires LoopNext(cfg, s, a).Some? && i < |s.sessions|
    requires forall j :: 0 <= j < |s.sessions| ==> s.sessions[j].lastActive <= s.clock
    ensures i < |LoopNext(cfg, s, a).value.sessions|
    ensures s.sessions[i].lastActive <= LoopNext(cfg, s, a).value.sessions[i].lastActive
  {
    if Simple(s) {
      SimpleFrame(cfg, s, a);
    } else if s.loop.Start? {
      StartFrame(cfg, s, a);
    } else if s.loop.Touch? || s.loop.Send? {
      TouchOrSendFrame(cfg, s, a);
    } else if s.loop.Select? {
      SelectFrame(cfg, s, a);
    } else if s.loop.Sweep? {
      SweepFrame(cfg, s, a);
    }
  }

  // Runs.

  /** A sweep is still to come, or about to begin; `last` is the loop's last reading. */
  predicate Window(s: State, e: int, last: int, gap: int) {
    && last <= s.clock && !s.loop.Init?
    && if s.loop.Select? then last < e + Clock.CLEANUP_INTERVAL + gap
       else s.lastCleanup <= e && last < e + Clock.CLEANUP_INTERVAL
  }

  lemma MaybeKeepsWindow(cfg: Config, s: State, a: Act, e: int, last: int, gap: int)
    requires Inv(cfg, s) && s.loop.Maybe? && LoopNext(cfg, s, a).Some? && 0 <= gap
    requires Window(s, e, last, gap) && a.Now? && a.now - last <= gap
    ensures Window(LoopNext(cfg, s, a).value, e, a.now, gap)
  {
    Clock.NoWrap(a.now, s.lastCleanup);
  }

  lemma SelectKeepsWindow(cfg: Config, s: State, a: Act, c: string, i: nat, e: int, last: int, gap: int)
    requires Reachable(cfg, s) && Inv(cfg, s) && s.loop.Select? && LoopNext(cfg, s, a).Some? && 0 <= gap
    requires Bound(s, c, i) && Bound(LoopNext(cfg, s, a).value, c, i)
    requires s.sessions[i].marked || SilentAt(cfg, s.sessions[i], e)
    requires Window(s, e, last, gap)
    ensures Window(LoopNext(cfg, s, a).value, e, last, gap)
  {
    BindingLasts(cfg, s, Step.Loop(a), c, i);
    SelectFrame(cfg, s, a);
  }

  lemma ElsewhereKeepsWindow(cfg: Config, s: State, a: Act, e: int, last: int, gap: int)
    requires !s.loop.Maybe? && !s.loop.Select? && LoopNext(cfg, s, a).Some? && 0 <= gap
    requires Window(s, e, last, gap)
    ensures Window(LoopNext(cfg, s, a).value, e, last, gap)
  {
    LoopElsewhere(cfg, s, a);
  }

  lemma OthersKeepWindow(cfg: Config, s: State, step: Step, c: string, i: nat, e: int, last: int, gap: int)
    requires Inv(cfg, s) && Next(cfg, s, step).Some? && !step.Loop? && 0 <= gap
    requires Bound(s, c, i) && Window(s, e, last, gap)
    ensures Window(Next(cfg, s, step).value, e, last, gap)
  {
    StepKeepsInv(cfg, s, step);
    match step {
      case Receiver(j, a) => ReceiverFrame(s, j, a);
      case Resolver(a) => ResolverFrame(cfg, s, a);
      case Control(a) => ControlElsewhere(cfg, s, a);
    }
  }

  /** While the session is overdue and stays in the table, the window is kept. */
  lemma StepKeepsWindow(cfg: Config, s: State, step: Step, c: string, i: nat, e: int, last: int, gap: int)
    requires Reachable(cfg, s) && Inv(cfg, s) && Next(cfg, s, step).Some? && 0 <= gap
    requires Bound(s, c, i) && Bound(Next(cfg, s, step).value, c, i)
    requires s.sessions[i].marked || SilentAt(cfg, s.sessions[i], e)
    requires Window(s, e, last, gap) && Reading(s, step, last) - last <= gap
    ensures Window(Next(cfg, s, step).value, e, Reading(s, step, last), gap)
  {
    if !step.Loop? {
      OthersKeepWindow(cfg, s, step, c, i, e, last, gap);
    } else if s.loop.Maybe? {
      MaybeKeepsWindow(cfg, s, step.act, e, last, gap);
    } else if s.loop.Select? {
      SelectKeepsWindow(cfg, s, step.act, c, i, e, last, gap);
    } else {
      ElsewhereKeepsWindow(cfg, s, step.act, e, last, gap);
    }
  }

  lemma PacedSplits(cfg: Config, s: State, most: seq<Step>, last: Step, before: int, gap: int)
    requires After(cfg, s, most).Some? && Paced(cfg, s, most + [last], before, gap)
    ensures Paced(cfg, s, most, before, gap)
    ensures var t, reading := After(cfg, s, most).value, LastReading(cfg, s, most, before);
      && LastReading(cfg, s, most + [last], before) == Reading(t, last, reading)
      && Reading(t, last, reading) - reading <= gap
  {
    assert (most + [last])[..|most|] == most;
  }

  /** Before the last step of a run the session was in the table, too, no more marked and no older. */
  lemma BeforeLast(cfg: Config, s: State, run: seq<Step>, step: Step, c: string, i: nat)
    requires Reachable(cfg, s) && Bound(s, c, i) && After(cfg, s, run).Some?
    requires Next(cfg, After(cfg, s, run).value, step).Some?
    requires Bound(Next(cfg, After(cfg, s, run).value, step).value, c, i)
    ensures var t := After(cfg, s, run).value; var t' := Next(cfg, t, step).value;
      && Reachable(cfg, t) && Inv(cfg, t) && Bound(t, c, i)
      && (s.sessions[i].marked ==> t.sessions[i].marked)
      && t.sessions[i].lastActive <= t'.sessions[i].lastActive
  {
    var t := After(cfg, s, run).value;
    ReachableIsGood(cfg, s);
    RunIsReachable(cfg, s, run);
    ReachableIsGood(cfg, t);
    RunContinues(cfg, s, run);
    assert SameRecord(s.sessions[i], t.sessions[i]);
    BindingIsOld(cfg, t, step, c, i);
    StampGrows(cfg, t, step, i);
  }

  lemma {:induction false} RunKeepsWindow(cfg: Config, s: State, run: seq<Step>, c: string, i: nat, e: int,
          before: int, gap: int)
    requires Reachable(cfg, s) && After(cfg, s, run).Some? && !s.loop.Init? && Bound(s, c, i)
    requires before <= s.clock <= e && 0 <= gap && Paced(cfg, s, run, before, gap)
    requires Bound(After(cfg, s, run).value, c, i)
    requires s.sessions[i].marked || SilentAt(cfg, After(cfg, s, run).value.sessions[i], e)
    ensures Window(After(cfg, s, run).value, e, LastReading(cfg, s, run, before), gap)
    decreases |run|
  {
    ReachableIsGood(cfg, s);
    if run != [] {
      var most, last := run[..|run| - 1], run[|run| - 1];
      MostAndLast(run);
      RunSplits(cfg, s, most, last);
      PacedSplits(cfg, s, most, last, before, gap);
      var t := After(cfg, s, most).value;
      BeforeLast(cfg, s, most, last, c, i);
      RunKeepsWindow(cfg, s, most, c, i, e, before, gap);
      StepKeepsWindow(cfg, t, last, c, i, e, LastReading(cfg, s, most, before), gap);
    }
  }

  lemma {:induction false} RunsJoin(cfg: Config, s: State, first: seq<Step>, rest: seq<Step>)
    requires After(cfg, s, first).Some?
    ensures After(cfg, s, first + rest) == After(cfg, After(cfg, s, first).value, rest)
    decreases first
  {
    if first == [] {
      assert first + rest == rest;
    } else {
      assert (first + rest)[1..] == first[1..] + rest;
      RunsJoin(cfg, Next(cfg, s, first[0]).value, first[1..], rest);
    }
  }

  lemma RunIsReachable(cfg: Config, s: State, run: seq<Step>)
    requires Reachable(cfg, s) && After(cfg, s, run).Some?
    ensures Reachable(cfg, After(cfg, s, run).value)
  {
    var first :| After(cfg, INITIAL, first) == Some(s);
    RunsJoin(cfg, INITIAL, first, run);
  }

  /** The upper half of the eviction bound.  Take any reachable state in which client `c` has session
      `i`, a moment `e` not before it, and any run from there whose readings are at most `gap` apart.
      If the session is marked, or in the end had been silent for longer than the timeout at `e`, then
      every reading taken while it is still in the table comes less than the cleanup interval plus
      `gap` after `e`.  (The lower half is `UdpTheorems.ActiveSessionIsKept`.) */
  lemma OverdueSessionIsRemoved(cfg: Config, s: State, run: seq<Step>, c: string, i: nat, e: int, before: int, gap: int)
    requires Reachable(cfg, s) && After(cfg, s, run).Some? && Bound(s, c, i)
    requires before <= s.clock <= e && 0 <= gap && Paced(cfg, s, run, before, gap)
    requires i < |After(cfg, s, run).value.sessions|
    requires s.sessions[i].marked || SilentAt(cfg, After(cfg, s, run).value.sessions[i], e)
    ensures Bound(After(cfg, s, run).value, c, i) ==>
              LastReading(cfg, s, run, before) < e + 1000 + gap
  {
    ReachableIsGood(cfg, s);
    var first :| After(cfg, INITIAL, first) == Some(s);
    BoundIsPastInit(cfg, first);
    if Bound(After(cfg, s, run).value, c, i) {
      RunKeepsWindow(cfg, s, run, c, i, e, before, gap);
    }
  }
}
