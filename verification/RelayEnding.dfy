/**
 A TCP session winds up.  Once a direction has ended abnormally, or Stop has run, the shutdown calls
 leave the session only the bytes already received by the kernel and a bounded number of steps,
 and none of those waits for a peer.
 */
module RelayEnding {
  import opened RelayProgram
  import opened RelaySession

  /** The line is over, or its source gives nothing more than what has arrived and its destination
      cannot keep a send waiting. */
  predicate Settled(src: Sock, dst: Sock, l: Line) {
    Over(l) || (src.readDown && (dst.writeDown || dst.broken))
  }

  predicate Winding(s: State) {
    Settled(s.client, s.upstream, s.up) && Settled(s.upstream, s.client, s.down)
  }

  predicate EndedBadly(l: Line) {
    Over(l) && !EndingOf(l).CleanEof?
  }

  /** An abnormal end of either direction winds the whole session up, and so does a completed call
      of Stop. */
  lemma TroubleWindsUp(s: State)
    requires Reachable(s)
    requires EndedBadly(s.up) || EndedBadly(s.down) || (s.stopping && s.stopper.Out?)
    ensures Winding(s)
  {
    ReachableIsInv(s);
  }

  function LineRank(src: Sock, l: Line): nat {
    var rest := if l.taken <= |src.sent| then 2 * (|src.sent| - l.taken) else 0;
    match l.thread
    case NotStarted => rest + 8
    case Loading => rest + 7
    case Joined(_) => 0
    case Running(_, _, pc) =>
      match pc
      case Receiving => rest + 5
      case Sending(chunk, sent) => rest + 5 + |Pending(pc)|
      case AtFailure => 3
      case Returned(_) => 1
      case _ => 2
  }

  function WorkerRank(w: Worker): nat {
    match w
    case Idle => 12
    case SpawnUp => 11
    case SpawnDown => 10
    case JoinUp => 9
    case JoinDown => 8
    case Locking => 7
    case CloseClient => 6
    case ForgetClient => 5
    case CloseUpstream => 4
    case ForgetUpstream => 3
    case Unlocking => 2
    case Finishing => 1
    case Exited => 0
  }

  function StopperRank(s: State): nat {
    match s.stopper
    case Waiting => 4
    case ShutClient => 3
    case ShutUpstream => 2
    case Leaving => 1
    case _ => if s.stopping then 0 else 5
  }

  function Rank(s: State): nat {
    LineRank(s.client, s.up) + LineRank(s.upstream, s.down) + WorkerRank(s.worker) + StopperRank(s)
  }

  /** Steps of the session itself; what peers and other sockets do is not counted, and neither are
      calls of Stop that find it already called. */
  predicate Counted(s: State, step: Step) {
    match step
    case WorkerStep => true
    case StopperStep => !s.stopper.Out? && !(s.stopper.Entering? && s.stopping)
    case LineStep(_, _) => true
    case LoadStep(_) => true
    case _ => false
  }

  /** A line's step lowers its rank by the bytes it moves, and never raises the other line's. */
  lemma LineLowersRank(src: Sock, dst: Sock, l: Line, e: Event)
    requires StreamOk(src, dst, l) && LineNext(src, dst, l, e).Some?
    ensures var (src', dst', l') := LineNext(src, dst, l, e).value; LineRank(src', l') < LineRank(src, l)
  {
    var (src', dst', l') := LineNext(src, dst, l, e).value;
    if e.Sent? {
      assert Pending(l.thread.pc) == e.bytes + Pending(l.thread.pc)[|e.bytes|..];
      StepConserves(l.thread.pc, e);
    }
  }

  lemma SameRank(src: Sock, src': Sock, l: Line)
    requires src'.sent == src.sent || Over(l)
    ensures LineRank(src', l) == LineRank(src, l)
  {
  }

  lemma WorkerLowersRank(s: State)
    requires WorkerNext(s).Some? && ThreadsOk(s)
    ensures Rank(WorkerNext(s).value) < Rank(s)
  {
    WorkerRankStep(s);
    WorkerLines(s);
    var s' := WorkerNext(s).value;
    HandOverLowersRank(s.client, s'.client, s.up, s'.up);
    HandOverLowersRank(s.upstream, s'.upstream, s.down, s'.down);
  }

  lemma WorkerRankStep(s: State)
    requires WorkerNext(s).Some?
    ensures WorkerRank(WorkerNext(s).value.worker) < WorkerRank(s.worker)
    ensures StopperRank(WorkerNext(s).value) == StopperRank(s)
  {
  }

  lemma HandOverLowersRank(src: Sock, src': Sock, l: Line, l': Line)
    requires OnlyHandle(src, src')
    requires l' == l || (l' == l.(thread := l'.thread)
      && ((l'.thread.Loading? && l.thread.NotStarted?) || (Over(l) && l'.thread == Joined(EndingOf(l)))))
    ensures LineRank(src', l') <= LineRank(src, l)
  {
    assert src'.(handle := 0).sent == src'.sent;
  }

  lemma RelayLowersRank(s: State, d: Direction, e: Event)
    requires Inv(s) && RelayNext(s, d, e).Some?
    ensures Rank(RelayNext(s, d, e).value) < Rank(s)
  {
    var s' := RelayNext(s, d, e).value;
    if d.Up? {
      LineFrame(s.client, s.upstream, s.up, e);
      LineLowersRank(s.client, s.upstream, s.up, e);
      SameRank(s.upstream, s'.upstream, s.down);
    } else {
      LineFrame(s.upstream, s.client, s.down, e);
      LineLowersRank(s.upstream, s.client, s.down, e);
      SameRank(s.client, s'.client, s.up);
    }
  }

  lemma StopperRankStep(s: State)
    requires StopperNext(s).Some? && (!s.stopper.Out? && !s.stopper.Entering? ==> s.stopping)
    ensures var s' := StopperNext(s).value;
      && (if Counted(s, StopperStep) then StopperRank(s') < StopperRank(s) else StopperRank(s') == StopperRank(s))
  {
  }

  lemma StopperLowersRank(s: State)
    requires StopperNext(s).Some? && (!s.stopper.Out? && !s.stopper.Entering? ==> s.stopping)
    ensures if Counted(s, StopperStep) then Rank(StopperNext(s).value) < Rank(s)
            else Rank(StopperNext(s).value) == Rank(s)
  {
    var s' := StopperNext(s).value;
    StopperRankStep(s);
    StopperFrame(s);
    StopperSends(s);
    SameRank(s.client, s'.client, s.up);
    SameRank(s.upstream, s'.upstream, s.down);
  }

  lemma StopperSends(s: State)
    requires StopperNext(s).Some?
    ensures StopperNext(s).value.client.sent == s.client.sent && StopperNext(s).value.upstream.sent == s.upstream.sent
  {
  }

  /** The line is over, or its source gives nothing more: its peer has sent its last byte, or its reading half is
      shut. */
  predicate Drying(src: Sock, l: Line) {
    Over(l) || src.fin || src.readDown
  }

  predicate Drains(s: State) {
    Drying(s.client, s.up) && Drying(s.upstream, s.down)
  }

  lemma WindingDrains(s: State)
    requires Winding(s)
    ensures Drains(s)
  {
  }

  lemma EnvironmentKeepsRank(s: State, step: Step)
    requires Drains(s) && EnvironmentNext(s, step).Some?
    ensures Rank(EnvironmentNext(s, step).value) == Rank(s)
  {
    var s' := EnvironmentNext(s, step).value;
    EnvironmentFrame(s, step);
    SameRank(s.client, s'.client, s.up);
    SameRank(s.upstream, s'.upstream, s.down);
  }

  /** While a session winds up, or its peers have nothing more to send, each of its own steps lowers the rank and
      nothing else raises it. */
  lemma StepLowersRank(s: State, step: Step)
    requires Inv(s) && Drains(s) && Next(s, step).Some?
    ensures if Counted(s, step) then Rank(Next(s, step).value) < Rank(s) else Rank(Next(s, step).value) == Rank(s)
  {
    match step {
      case WorkerStep => WorkerLowersRank(s);
      case StopperStep => StopperLowersRank(s);
      case LineStep(d, e) => RelayLowersRank(s, d, e);
      case LoadStep(d) =>
      case _ => EnvironmentKeepsRank(s, step);
    }
  }

  lemma WindingLasts(s: State, step: Step)
    requires Inv(s) && Winding(s) && Next(s, step).Some?
    ensures Winding(Next(s, step).value)
  {
    match step {
      case WorkerStep => WorkerLines(s);
      case StopperStep => StopperFrame(s);
      case LineStep(Up, e) => LineFrame(s.client, s.upstream, s.up, e);
      case LineStep(Down, e) => LineFrame(s.upstream, s.client, s.down, e);
      case LoadStep(d) =>
      case _ => EnvironmentFrame(s, step);
    }
  }

  lemma DrainingLasts(s: State, step: Step)
    requires Inv(s) && Drains(s) && Next(s, step).Some?
    ensures Drains(Next(s, step).value)
  {
    match step {
      case WorkerStep => WorkerDrains(s);
      case StopperStep => StopperFrame(s);
      case LineStep(Up, e) => LineFrame(s.client, s.upstream, s.up, e);
      case LineStep(Down, e) => LineFrame(s.upstream, s.client, s.down, e);
      case LoadStep(d) =>
      case _ => EnvironmentFrame(s, step);
    }
  }

  lemma WorkerDrains(s: State)
    requires WorkerNext(s).Some? && Drains(s) && ThreadsOk(s)
    ensures Drains(WorkerNext(s).value)
  {
  }

  function CountedIn(s: State, run: seq<Step>): nat
    requires AfterAll(s, run).Some?
    decreases run
  {
    if run == [] then 0
    else (if Counted(s, run[0]) then 1 else 0) + CountedIn(Next(s, run[0]).value, run[1..])
  }

  /** Whatever the peers do, a session that winds up, or whose peers have nothing more to send, takes at most
      rank-many more steps. */
  lemma {:induction false} StepsAreBounded(s: State, run: seq<Step>)
    requires Inv(s) && Drains(s) && AfterAll(s, run).Some?
    ensures CountedIn(s, run) + Rank(AfterAll(s, run).value) <= Rank(s)
    ensures Drains(AfterAll(s, run).value)
    ensures Winding(s) ==> Winding(AfterAll(s, run).value)
    decreases run
  {
    if run != [] {
      StepLowersRank(s, run[0]);
      DrainingLasts(s, run[0]);
      if Winding(s) { WindingLasts(s, run[0]); }
      StepKeepsInv(s, run[0]);
      StepsAreBounded(Next(s, run[0]).value, run[1..]);
    }
  }

  /** Answers the kernel cannot hold back: bytes that have arrived, the end of a stream whose reading
      half is shut, and the failure of a send on a connection that is shut or broken. */
  predicate Prompt(s: State, step: Step) {
    match step
    case LineStep(Up, e) => PromptOn(s.client, s.upstream, s.up, e)
    case LineStep(Down, e) => PromptOn(s.upstream, s.client, s.down, e)
    case _ => true
  }

  predicate PromptOn(src: Sock, dst: Sock, l: Line, e: Event) {
    match e
    case Received(_) => true
    case ReceivedEof => src.readDown && l.taken == |src.sent|
    case ReceivedError => false
    case Sent(_) => false
    case SendFailed => dst.writeDown || dst.broken
    case _ => true
  }

  lemma LineCanStep(src: Sock, dst: Sock, l: Line) returns (e: Event)
    requires LineOk(src, dst, l) && Settled(src, dst, l) && l.thread.Running? && !l.thread.pc.Returned?
    ensures LineNext(src, dst, l, e).Some? && PromptOn(src, dst, l, e)
  {
    match l.thread.pc {
      case Receiving =>
        if l.taken < |src.sent| {
          e := Received(src.sent[l.taken..l.taken + 1]);
        } else {
          e := ReceivedEof;
        }
      case Sending(_, _) => e := SendFailed;
      case AtEof => e := ShutWriteDestination;
      case AtError => e := ShutBothDestination;
      case AtFailure => e := ShutBothSource;
      case _ => e := ShutBothDestination;
    }
  }

  /** Until it has finished, a session that winds up always has a step of its own to take. */
  lemma NeverStuck(s: State) returns (step: Step)
    requires Inv(s) && Winding(s) && !s.finished
    ensures Next(s, step).Some? && Counted(s, step) && Prompt(s, step)
  {
    if s.worker.JoinUp? && !Over(s.up) {
      if s.up.thread.Loading? {
        step := LoadStep(Up);
      } else {
        var e := LineCanStep(s.client, s.upstream, s.up);
        step := LineStep(Up, e);
      }
    } else if s.worker.JoinDown? && !Over(s.down) {
      if s.down.thread.Loading? {
        step := LoadStep(Down);
      } else {
        var e := LineCanStep(s.upstream, s.client, s.down);
        step := LineStep(Down, e);
      }
    } else if s.worker.Locking? && s.lock.ByStopper? {
      step := StopperStep;
    } else {
      step := WorkerStep;
    }
  }

  /** After an abnormal end or a call of Stop, the session finishes: it has only boundedly many
      steps left, and as long as it has not finished it can take one that waits for nobody. */
  lemma SessionFinishes(s: State, run: seq<Step>)
    requires Reachable(s) && AfterAll(s, run).Some?
    requires EndedBadly(s.up) || EndedBadly(s.down) || (s.stopping && s.stopper.Out?)
    ensures CountedIn(s, run) <= Rank(s)
    ensures var s' := AfterAll(s, run).value;
      s'.finished || exists step :: Next(s', step).Some? && Counted(s', step) && Prompt(s', step)
    ensures CountedIn(s, run) == Rank(s) ==> AfterAll(s, run).value.finished
  {
    ReachableIsInv(s);
    TroubleWindsUp(s);
    WindingDrains(s);
    StepsAreBounded(s, run);
    RunKeepsInv(s, run);
    var s' := AfterAll(s, run).value;
    if !s'.finished {
      var step := NeverStuck(s');
      WindingDrains(s');
      StepLowersRank(s', step);
    }
  }

  // A session whose peers have both sent their last byte.

  /** An answer to the call a relay thread is in: any bytes that have arrived, the end of a stream that has ended, an
      error; any part of the rest of the buffer, or a failure. */
  predicate MayAnswer(src: Sock, dst: Sock, l: Line, e: Event)
    requires l.thread.Running?
  {
    var pc := l.thread.pc;
    && (pc.Receiving? ==>
          || (e.Received? && 0 < |e.data| <= 16384 && l.taken + |e.data| <= |src.sent|
              && e.data == src.sent[l.taken..l.taken + |e.data|])
          || (e.ReceivedEof? && src.fin && l.taken == |src.sent|)
          || e.ReceivedError?)
    && (pc.Sending? ==>
          || (e.Sent? && !dst.writeDown && e.bytes != [] && pc.sent <= |pc.chunk| && e.bytes <= pc.chunk[pc.sent..])
          || e.SendFailed?)
    && (pc.AtEof? ==> e.ShutWriteDestination?)
    && (pc.AtError? ==> e.ShutBothDestination?)
    && (pc.AtFailure? ==> e.ShutBothSource?)
    && (pc.AtFailureSourceDown? ==> e.ShutBothDestination?)
    && !pc.Returned?
  }

  /** A relay thread takes every answer; it goes on to send what it got, and goes back to receive once all of it is
      sent. */
  lemma EveryAnswerIsTaken(src: Sock, dst: Sock, l: Line, e: Event)
    requires l.thread.Running? && MayAnswer(src, dst, l, e) && WellFormed(l.thread.pc)
    ensures LineNext(src, dst, l, e).Some?
    ensures var (_, _, l') := LineNext(src, dst, l, e).value;
      && l'.thread.Running?
      && (e.Received? ==> l'.thread.pc == Sending(e.data, 0) && l'.taken == l.taken + |e.data|)
      && (e.Sent? ==> l'.delivered == l.delivered + e.bytes
                      && (l'.thread.pc.Receiving? || Pending(l'.thread.pc) == Pending(l.thread.pc)[|e.bytes|..]))
  {
  }

  /** An answer of a kernel whose peers keep reading: bytes that have arrived, the end of a stream that has ended, and
      room for what is to be sent; or a failure where a connection is shut or broken. */
  predicate Flows(s: State, step: Step) {
    match step
    case LineStep(Up, e) => FlowsOn(s.client, s.upstream, s.up, e)
    case LineStep(Down, e) => FlowsOn(s.upstream, s.client, s.down, e)
    case _ => true
  }

  predicate FlowsOn(src: Sock, dst: Sock, l: Line, e: Event) {
    || PromptOn(src, dst, l, e)
    || (e.ReceivedEof? && src.fin && l.taken == |src.sent|)
    || (e.Sent? && !dst.writeDown)
  }

  lemma LineFlows(src: Sock, dst: Sock, l: Line) returns (e: Event)
    requires LineOk(src, dst, l) && Drying(src, l) && l.thread.Running? && !l.thread.pc.Returned?
    ensures LineNext(src, dst, l, e).Some? && FlowsOn(src, dst, l, e)
  {
    match l.thread.pc {
      case Receiving =>
        if l.taken < |src.sent| {
          e := Received(src.sent[l.taken..l.taken + 1]);
        } else {
          e := ReceivedEof;
        }
      case Sending(chunk, sent) => e := if dst.writeDown then SendFailed else Sent(chunk[sent..]);
      case AtEof => e := ShutWriteDestination;
      case AtError => e := ShutBothDestination;
      case AtFailure => e := ShutBothSource;
      case _ => e := ShutBothDestination;
    }
  }

  lemma DrainingIsNeverStuck(s: State) returns (step: Step)
    requires Inv(s) && Drains(s) && !s.finished
    ensures Next(s, step).Some? && Counted(s, step) && Flows(s, step)
  {
    if s.worker.JoinUp? && !Over(s.up) {
      if s.up.thread.Loading? {
        step := LoadStep(Up);
      } else {
        var e := LineFlows(s.client, s.upstream, s.up);
        step := LineStep(Up, e);
      }
    } else if s.worker.JoinDown? && !Over(s.down) {
      if s.down.thread.Loading? {
        step := LoadStep(Down);
      } else {
        var e := LineFlows(s.upstream, s.client, s.down);
        step := LineStep(Down, e);
      }
    } else if s.worker.Locking? && s.lock.ByStopper? {
      step := StopperStep;
    } else {
      step := WorkerStep;
    }
  }

  /** Once both peers have sent their last byte, a session finishes by itself: boundedly many steps are left, and
      until it has finished there is one that waits only for a peer to read.  Unless Stop was called or a call
      failed, each side has then been given all the other sent. */
  lemma DrainedSessionFinishes(s: State, run: seq<Step>)
    requires Reachable(s) && AfterAll(s, run).Some? && s.client.fin && s.upstream.fin
    ensures CountedIn(s, run) <= Rank(s)
    ensures var s' := AfterAll(s, run).value;
      s'.finished || exists step :: Next(s', step).Some? && Counted(s', step) && Flows(s', step)
    ensures CountedIn(s, run) == Rank(s) ==> AfterAll(s, run).value.finished
    ensures var s' := AfterAll(s, run).value;
      s'.finished && !s'.stopping && !Troubled(s'.up) && !Troubled(s'.down) ==>
        s'.up.delivered == s'.client.sent && s'.down.delivered == s'.upstream.sent
  {
    ReachableIsInv(s);
    StepsAreBounded(s, run);
    RunKeepsInv(s, run);
    var s' := AfterAll(s, run).value;
    if !s'.finished {
      var step := DrainingIsNeverStuck(s');
      StepLowersRank(s', step);
    } else if !s'.stopping && !Troubled(s'.up) && !Troubled(s'.down) {
      CompleteLine(s'.client, s'.upstream, s'.up);
      CompleteLine(s'.upstream, s'.client, s'.down);
    }
  }

  /** In a session at work nobody waits without need: the worker starts both directions at once and waits only for
      their ends, or while Stop has the lock; a relay thread that was started begins to relay; Stop waits only
      while the worker closes the sockets, and a later call of Stop does nothing. */
  lemma NobodyWaitsWithoutNeed(s: State, d: Direction)
    requires Reachable(s)
    ensures WorkerNext(s).None? ==>
              || (s.worker.JoinUp? && !Over(s.up))
              || (s.worker.JoinDown? && !Over(s.down))
              || (s.worker.Locking? && s.lock.ByStopper?)
              || (s.finished && BothJoined(s))
    ensures !s.worker.Idle? && !s.worker.SpawnUp? && !s.worker.SpawnDown? ==>
              !s.up.thread.NotStarted? && !s.down.thread.NotStarted?
    ensures (if d.Up? then s.up else s.down).thread.Loading? ==> LoadNext(s, d).Some?
    ensures StopperNext(s).None? ==> s.stopper.Waiting? && s.lock.ByWorker?
    ensures s.stopper.Entering? && s.stopping ==> StopperNext(s).Some? && StopperNext(s).value == s.(stopper := Out)
  {
    ReachableIsInv(s);
  }
}
