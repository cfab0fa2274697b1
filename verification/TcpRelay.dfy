/**
 The sessions of TcpMachine are the sessions of RelaySession: every step of a session in full detail
 is a step of its worker, a completed call of Stop, or no step of the machine at all.  And what the
 machine grants a session that Stop has shut down, that it closes its sockets, is what such a
 session does.
 */
module TcpRelay {
  import opened RelayEnding
  import opened Sockets
  import opened TcpMachine

  function PhaseOf(w: RelaySession.Worker): Phase {
    match w
    case Idle => Fresh
    case ForgetClient => HalfClosed
    case CloseUpstream => HalfClosed
    case ForgetUpstream => Closed
    case Unlocking => Closed
    case Finishing => Closed
    case Exited => Finished
    case _ => Relaying
  }

  /** A call of Stop has returned. */
  predicate Called(r: RelaySession.State) {
    r.stopping && (r.stopper.Out? || r.stopper.Entering?)
  }

  predicate BothDown(r: RelaySession.State) {
    RelaySession.Down2(r.client) && RelaySession.Down2(r.upstream)
  }

  predicate Represents(r: RelaySession.State, z: Session) {
    && z.client == End(r.client.fd, r.client.x) && z.upstream == End(r.upstream.fd, r.upstream.x)
    && (z.phase == PhaseOf(r.worker) || (z.phase.Joined? && r.worker.Exited?))
    && (z.stopping <==> Called(r))
    && (z.shut ==> BothDown(r) || RelaySession.BothJoined(r))
  }

  /** Moves of a worker, as in `WorkerNext`, and the first one, which is AcceptLoop's call of Start. */
  predicate Works(z: Session, z': Session, k: Kernel, k': Kernel) {
    && z' == z.(phase := z'.phase)
    && (match z.phase
        case Fresh => z'.phase == Relaying && k' == k
        case Relaying => z'.phase == HalfClosed && k' == Close(k, z.client.fd)
        case HalfClosed => z'.phase == Closed && k' == Close(k, z.upstream.fd)
        case Closed => z'.phase == Finished && k' == k
        case _ => false)
  }

  /** A completed call of Stop, as in `StopNext`: not while the worker closes the sockets. */
  predicate Asks(z: Session, z': Session) {
    !z.stopping && !z.phase.HalfClosed? && z' == AskedToStop(z)
  }

  /** A new session of RelaySession is a session as AcceptLoop inserts it. */
  lemma NewIsFresh(r: RelaySession.State, k: Kernel, peer: string)
    requires RelaySession.IsNew(r, k)
    ensures var client, upstream := End(r.client.fd, r.client.x), End(r.upstream.fd, r.upstream.x);
      Represents(r, Session(client, upstream, peer, Fresh, false, false))
  {
  }

  lemma WorkerFlags(r: RelaySession.State)
    requires RelaySession.ThreadsOk(r) && RelaySession.WorkerNext(r).Some?
    ensures var r' := RelaySession.WorkerNext(r).value;
      && r'.client.x == r.client.x && r'.client.fd == r.client.fd
      && r'.upstream.x == r.upstream.x && r'.upstream.fd == r.upstream.fd
      && Called(r') == Called(r) && BothDown(r') == BothDown(r)
      && (RelaySession.BothJoined(r) ==> RelaySession.BothJoined(r'))
  {
  }

  lemma WorkerMoves(r: RelaySession.State)
    requires RelaySession.WorkerNext(r).Some?
    requires r.worker.CloseClient? ==> r.client.handle != INVALID && r.client.handle == r.client.fd
    requires r.worker.CloseUpstream? ==> r.upstream.handle != INVALID && r.upstream.handle == r.upstream.fd
    ensures var r' := RelaySession.WorkerNext(r).value; var p, p' := PhaseOf(r.worker), PhaseOf(r'.worker);
      match p
      case Fresh => p'.Relaying? && r'.k == r.k
      case Relaying => if p'.Relaying? then r'.k == r.k else p'.HalfClosed? && r'.k == Close(r.k, r.client.fd)
      case HalfClosed => if p'.HalfClosed? then r'.k == r.k else p'.Closed? && r'.k == Close(r.k, r.upstream.fd)
      case Closed => (p'.Closed? || p'.Finished?) && r'.k == r.k
      case _ => false
  {
  }

  lemma WorkerRefines(r: RelaySession.State, z: Session) returns (z': Session)
    requires RelaySession.Inv(r) && Represents(r, z) && RelaySession.WorkerNext(r).Some?
    ensures var r' := RelaySession.WorkerNext(r).value;
      Represents(r', z') && ((z' == z && r'.k == r.k) || Works(z, z', r.k, r'.k))
  {
    RelaySession.WorkerKeepsHandles(r);
    WorkerFlags(r);
    WorkerMoves(r);
    z' := z.(phase := PhaseOf(RelaySession.WorkerNext(r).value.worker));
  }

  lemma StopperRefines(r: RelaySession.State, z: Session) returns (z': Session)
    requires RelaySession.Inv(r) && Represents(r, z) && RelaySession.StopperNext(r).Some?
    ensures var r' := RelaySession.StopperNext(r).value;
      Represents(r', z') && r'.k == r.k && (z' == z || Asks(z, z'))
  {
    z' := if r.stopper.Leaving? then AskedToStop(z) else z;
  }

  /** Steps of the relay threads, of the peers and of the rest of the process are none of the machine's
      steps on this session. */
  lemma OthersRefine(r: RelaySession.State, step: RelaySession.Step, z: Session)
    requires RelaySession.Inv(r) && Represents(r, z)
    requires !step.WorkerStep? && !step.StopperStep? && RelaySession.Next(r, step).Some?
    ensures var r' := RelaySession.Next(r, step).value;
      Represents(r', z) && (r'.k == r.k || step.OthersOpen? || step.OthersClose?)
  {
    match step {
      case LineStep(Up, e) => RelaySession.LineFrame(r.client, r.upstream, r.up, e);
      case LineStep(Down, e) => RelaySession.LineFrame(r.upstream, r.client, r.down, e);
      case LoadStep(d) =>
      case _ => RelaySession.EnvironmentFrame(r, step);
    }
  }

  /** Forward simulation. */
  lemma SessionRefines(r: RelaySession.State, step: RelaySession.Step, z: Session) returns (z': Session)
    requires RelaySession.Reachable(r) && Represents(r, z) && RelaySession.Next(r, step).Some?
    ensures var r' := RelaySession.Next(r, step).value;
      && Represents(r', z')
      && (|| (z' == z && (r'.k == r.k || step.OthersOpen? || step.OthersClose?))
          || (step.WorkerStep? && Works(z, z', r.k, r'.k))
          || (step.StopperStep? && r'.k == r.k && Asks(z, z')))
  {
    RelaySession.ReachableIsInv(r);
    match step {
      case WorkerStep => z' := WorkerRefines(r, z);
      case StopperStep => z' := StopperRefines(r, z);
      case _ =>
        OthersRefine(r, step, z);
        z' := z;
    }
  }

  /** The machine's flags mean what they say: the finished flag is the phase Finished, the lock is the
      worker's while it is closing, and a session whose threads still run after a completed Stop has
      both its sockets shut down. */
  lemma FlagsAreMeant(r: RelaySession.State, z: Session)
    requires RelaySession.Reachable(r) && Represents(r, z)
    ensures r.finished <==> z.phase.Finished? || z.phase.Joined?
    ensures z.phase.HalfClosed? ==> r.lock.ByWorker?
    ensures z.stopping && !RelaySession.BothJoined(r) ==> BothDown(r)
  {
    RelaySession.ReachableIsInv(r);
  }

  // A session that was shut down closes its sockets.

  /** It has a bounded number of steps left, and until it has finished it can take one that waits for
      nobody. */
  ghost predicate EndsSoon(r: RelaySession.State, run: seq<RelaySession.Step>)
    requires RelaySession.AfterAll(r, run).Some?
  {
    var r' := RelaySession.AfterAll(r, run).value;
    && CountedIn(r, run) <= Rank(r)
    && (CountedIn(r, run) == Rank(r) ==> PhaseOf(r'.worker).Finished?)
    && (PhaseOf(r'.worker).Finished?
        || exists step :: RelaySession.Next(r', step).Some? && Counted(r', step) && Prompt(r', step))
  }

  ghost predicate ClosesByItself(z: Session) {
    forall r, run :: RelaySession.Reachable(r) && Represents(r, z) && RelaySession.AfterAll(r, run).Some? ==>
      EndsSoon(r, run)
  }

  lemma ShutWindsUp(r: RelaySession.State, z: Session)
    requires Represents(r, z) && z.shut
    ensures Winding(r)
  {
  }

  lemma ShutSessionEnds(r: RelaySession.State, z: Session, run: seq<RelaySession.Step>)
    requires RelaySession.Reachable(r) && Represents(r, z) && z.shut && RelaySession.AfterAll(r, run).Some?
    ensures EndsSoon(r, run)
  {
    RelaySession.ReachableIsInv(r);
    ShutWindsUp(r, z);
    WindingDrains(r);
    StepsAreBounded(r, run);
    RelaySession.RunKeepsInv(r, run);
    var r' := RelaySession.AfterAll(r, run).value;
    if !r'.finished {
      var step := NeverStuck(r');
      StepLowersRank(r', step);
    }
  }

  /** What `TcpStop.Prompt` grants a session in the way of Stop. */
  lemma ShutSessionCloses(z: Session)
    requires z.shut
    ensures ClosesByItself(z)
  {
    forall r, run | RelaySession.Reachable(r) && Represents(r, z) && RelaySession.AfterAll(r, run).Some?
      ensures EndsSoon(r, run)
    {
      ShutSessionEnds(r, z, run);
    }
  }
}
