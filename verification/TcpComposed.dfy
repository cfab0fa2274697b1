/**
 One session of a running forwarder in full detail: the TCP machine and the session of RelaySession run
 side by side over one kernel.  What RelaySession takes for granted about the rest of the process is
 what the machine does, so its results hold of every session of a running forwarder.
 */
module TcpComposed {
  import opened Sockets
  import opened TcpMachine
  import opened TcpRelay
  import opened TcpSafety
  import RelaySession

  /** A change of the kernel that leaves the sockets of session `z` alone. */
  ghost predicate Spares(k: Kernel, k': Kernel, z: Session) {
    || k' == k
    || Opens(k, k')
    || exists h :: ClosesOther(k, k', z, h)
  }

  ghost predicate Opens(k: Kernel, k': Kernel) {
    exists h :: Free(k, h) && k' == Open(k, h)
  }

  predicate ClosesOther(k: Kernel, k': Kernel, z: Session, h: int) {
    h in k.fds && k.fds[h] != z.client.x && k.fds[h] != z.upstream.x && k' == Close(k, h)
  }

  // The other threads.

  lemma WorkerSpares(s: State, m: nat, n: nat)
    requires Inv(s) && WorkerNext(s, m).Some? && n < |s.sessions| && n != m
    ensures Spares(s.k, WorkerNext(s, m).value.k, s.sessions[n])
  {
    WorkerSteps(s, m);
    TwoSessions(s, m, n);
    var z := s.sessions[m];
    assert SessionOk(s.k, z);
    if z.phase.Relaying? {
      assert ClosesOther(s.k, WorkerNext(s, m).value.k, s.sessions[n], z.client.fd);
    } else if z.phase.HalfClosed? {
      assert ClosesOther(s.k, WorkerNext(s, m).value.k, s.sessions[n], z.upstream.fd);
    }
  }

  lemma EndSpares(s: State, s': State, e: End, n: nat)
    requires Inv(s) && OwnEnd(s, e) && s'.k == Close(s.k, e.fd) && n < |s.sessions|
    ensures Spares(s.k, s'.k, s.sessions[n])
  {
    assert SessionOk(s.k, s.sessions[n]);
    assert ClosesOther(s.k, s'.k, s.sessions[n], e.fd);
  }

  lemma AcceptSpares(cfg: Config, s: State, a: Act, n: nat)
    requires Inv(s) && Next(cfg, s, Step.Accept(a)).Some? && n < |s.sessions|
    ensures Spares(s.k, Next(cfg, s, Step.Accept(a)).value.k, s.sessions[n])
  {
    if s.accept.Reap? {
      ReapFrame(s, a);
    } else if s.accept.Reaping? {
      ReapFrame(s, a);
      if s.accept.list != [] { ReapJoinKeepsInv(s); }
    } else if s.accept.Insert? {
      InsertFrame(cfg, s, a);
    } else if s.accept.Start? {
      StartFrame(cfg, s, a);
    } else if Simple(s, a) {
      SimpleFrame(cfg, s, a);
    } else {
      SocketFrame(cfg, s, a);
      if s.accept.Trial? {
        EndSpares(s, AcceptNext(cfg, s, a).value, s.accept.u, n);
      } else if s.accept.Drop? {
        EndSpares(s, AcceptNext(cfg, s, a).value, s.accept.c, n);
      }
    }
  }

  lemma StopSpares(s: State, a: Act)
    requires Inv(s) && StopNext(s, a).Some?
    ensures StopNext(s, a).value.k == s.k
  {
    StopFrame(s, a);
    if s.control.JoinSessions? && s.control.list != [] {
      assert s.control.list[0] in s.control.list;
      assert PlaceOk(s, s.control.list[0]);
    }
  }

  lemma ListenCloses(cfg: Config, s: State, a: Act)
    requires ListenNext(cfg, s, a).Some?
    ensures var k' := ListenNext(cfg, s, a).value.k;
      || k' == s.k
      || (s.control.Trying? && a.Opened? && Free(s.k, a.h) && k' == Open(s.k, a.h))
      || (s.control.Candidate? && k' == Close(s.k, s.control.h))
      || (s.control.CloseListen? && k' == Close(s.k, s.listen))
  {
  }

  lemma ListenSpares(cfg: Config, s: State, a: Act, n: nat)
    requires Inv(s) && ListenNext(cfg, s, a).Some? && n < |s.sessions|
    ensures Spares(s.k, ListenNext(cfg, s, a).value.k, s.sessions[n])
  {
    var k', z := ListenNext(cfg, s, a).value.k, s.sessions[n];
    ListenCloses(cfg, s, a);
    assert SessionOk(s.k, z);
    if s.control.Candidate? && k' == Close(s.k, s.control.h) {
      AllJoined(s);
      assert IsOpen(s.k, s.control.x);
      assert ClosesOther(s.k, k', z, s.control.h);
    } else if s.control.CloseListen? && k' == Close(s.k, s.listen) {
      assert ClosesOther(s.k, k', z, s.listen);
    }
  }

  /** No step but those of its own worker touches a session's sockets: the kernel stays as it is, or one
      free number is opened, or one number is closed that means another socket. */
  lemma OthersSpareSession(cfg: Config, s: State, step: Step, n: nat)
    requires Inv(s) && Next(cfg, s, step).Some? && n < |s.sessions| && step != Worker(n)
    ensures Spares(s.k, Next(cfg, s, step).value.k, s.sessions[n])
  {
    match step {
      case Worker(m) => WorkerSpares(s, m, n);
      case Accept(a) => AcceptSpares(cfg, s, a, n);
      case Resolver(a) => ResolverFrame(cfg, s, a);
      case Control(a) => if Listening(s.control) { ListenSpares(cfg, s, a, n); } else { StopSpares(s, a); }
    }
  }

  // Machine and session side by side.

  datatype Pair = Pair(s: State, r: RelaySession.State)

  /** A step of the session itself. */
  predicate Own(inner: RelaySession.Step) {
    !inner.OthersOpen? && !inner.OthersClose?
  }

  /** A step of the machine that is none of session `n`, except that a finished session may be joined. */
  ghost predicate Alone(cfg: Config, n: nat, p: Pair, q: Pair, step: Step) {
    && n < |p.s.sessions| && step != Worker(n) && Next(cfg, p.s, step) == Some(q.s) && n < |q.s.sessions|
    && q.r == p.r.(k := q.s.k)
    && var z, z' := p.s.sessions[n], q.s.sessions[n]; z' == z || (z.phase.Finished? && z' == z.(phase := Joined))
  }

  /** A step of the session that is none of the machine. */
  predicate Inside(n: nat, p: Pair, q: Pair, inner: RelaySession.Step) {
    && n < |p.s.sessions| && Own(inner) && RelaySession.Next(p.r, inner) == Some(q.r)
    && q.s == p.s && q.r.k == p.s.k && Represents(q.r, p.s.sessions[n])
  }

  /** One step of both. */
  ghost predicate Together(cfg: Config, n: nat, p: Pair, q: Pair, step: Step, inner: RelaySession.Step) {
    && Next(cfg, p.s, step) == Some(q.s) && Own(inner) && RelaySession.Next(p.r, inner) == Some(q.r)
    && n < |q.s.sessions| && q.r.k == q.s.k && Represents(q.r, q.s.sessions[n])
  }

  ghost predicate JointStep(cfg: Config, n: nat, p: Pair, q: Pair) {
    || (exists step :: Alone(cfg, n, p, q, step))
    || (exists inner :: Inside(n, p, q, inner))
    || (exists step, inner :: Together(cfg, n, p, q, step, inner))
  }

  ghost predicate Joint(cfg: Config, n: nat, p: Pair) {
    && Reachable(cfg, p.s) && n < |p.s.sessions| && RelaySession.Reachable(p.r)
    && p.r.k == p.s.k && Represents(p.r, p.s.sessions[n])
  }

  lemma {:induction false} SessionSplits(r: RelaySession.State, run: seq<RelaySession.Step>, step: RelaySession.Step)
    ensures RelaySession.AfterAll(r, run + [step]) ==
            match RelaySession.AfterAll(r, run) case None => None case Some(t) => RelaySession.Next(t, step)
    decreases run
  {
    if run == [] {
      assert (run + [step])[1..] == [];
    } else {
      assert (run + [step])[1..] == run[1..] + [step];
      if RelaySession.Next(r, run[0]).Some? { SessionSplits(RelaySession.Next(r, run[0]).value, run[1..], step); }
    }
  }

  lemma SessionGoesOn(r: RelaySession.State, step: RelaySession.Step)
    requires RelaySession.Reachable(r) && RelaySession.Next(r, step).Some?
    ensures RelaySession.Reachable(RelaySession.Next(r, step).value)
  {
    var k, r0, run :| Valid(k) && RelaySession.IsNew(r0, k) && RelaySession.AfterAll(r0, run) == Some(r);
    SessionSplits(r0, run, step);
  }

  /** To the session, a step of the machine is a step of the rest of the process, or none. */
  lemma OthersAreOthers(r: RelaySession.State, k': Kernel, z: Session)
    requires RelaySession.Reachable(r) && Represents(r, z) && Spares(r.k, k', z)
    ensures RelaySession.Reachable(r.(k := k'))
  {
    if k' == r.k {
      assert r.(k := k') == r;
    } else if Opens(r.k, k') {
      var h :| Free(r.k, h) && k' == Open(r.k, h);
      assert RelaySession.Next(r, RelaySession.OthersOpen(h)) == Some(r.(k := k'));
      SessionGoesOn(r, RelaySession.OthersOpen(h));
    } else {
      var h :| ClosesOther(r.k, k', z, h);
      assert RelaySession.Next(r, RelaySession.OthersClose(h)) == Some(r.(k := k'));
      SessionGoesOn(r, RelaySession.OthersClose(h));
    }
  }

  lemma StepKeepsJoint(cfg: Config, n: nat, p: Pair, q: Pair)
    requires Joint(cfg, n, p) && JointStep(cfg, n, p, q)
    ensures Joint(cfg, n, q)
  {
    if step :| Alone(cfg, n, p, q, step) {
      ReachableIsInv(cfg, p.s);
      OthersSpareSession(cfg, p.s, step, n);
      OthersAreOthers(p.r, q.s.k, p.s.sessions[n]);
      MachineGoesOn(cfg, p.s, step);
    } else if inner :| Inside(n, p, q, inner) {
      SessionGoesOn(p.r, inner);
    } else {
      var step, inner :| Together(cfg, n, p, q, step, inner);
      MachineGoesOn(cfg, p.s, step);
      SessionGoesOn(p.r, inner);
    }
  }

  /** The session in full detail as AcceptLoop makes it. */
  function NewDetail(k: Kernel, z: Session): RelaySession.State {
    var client := RelaySession.Sock(z.client.x, z.client.fd, z.client.fd, [], false, false, false, false);
    var upstream := RelaySession.Sock(z.upstream.x, z.upstream.fd, z.upstream.fd, [], false, false, false, false);
    var line := RelaySession.Line(RelaySession.NotStarted, 0, []);
    RelaySession.State(k, client, upstream, line, line, RelaySession.Idle, false, false, RelaySession.Lock.Free,
                       RelaySession.Out)
  }

  /** Session `n` has just been inserted, and the pair starts with it. */
  ghost predicate Begins(cfg: Config, n: nat, p: Pair) {
    && Reachable(cfg, p.s) && n < |p.s.sessions|
    && p.s.sessions[n].phase.Fresh? && !p.s.sessions[n].stopping && !p.s.sessions[n].shut
    && p.r == NewDetail(p.s.k, p.s.sessions[n])
  }

  lemma BeginningIsJoint(cfg: Config, n: nat, p: Pair)
    requires Begins(cfg, n, p)
    ensures Joint(cfg, n, p)
  {
    ReachableIsInv(cfg, p.s);
    assert SessionOk(p.s.k, p.s.sessions[n]);
    assert RelaySession.IsNew(p.r, p.s.k);
    assert RelaySession.AfterAll(p.r, []) == Some(p.r);
    NewIsFresh(p.r, p.s.k, p.s.sessions[n].peer);
  }

  ghost predicate IsJointRun(cfg: Config, n: nat, trace: seq<Pair>) {
    trace != [] && Begins(cfg, n, trace[0]) && forall i :: 0 < i < |trace| ==> JointStep(cfg, n, trace[i - 1], trace[i])
  }

  /** Over every run of the forwarder with a session of it in full detail, from the moment the session is
      inserted, the detailed session is one of RelaySession over the forwarder's own kernel. */
  lemma {:induction false} RunStaysJoint(cfg: Config, n: nat, trace: seq<Pair>)
    requires IsJointRun(cfg, n, trace)
    ensures Joint(cfg, n, trace[|trace| - 1])
    decreases |trace|
  {
    var m := |trace| - 1;
    if m == 0 {
      BeginningIsJoint(cfg, n, trace[0]);
    } else {
      assert IsJointRun(cfg, n, trace[..m]);
      RunStaysJoint(cfg, n, trace[..m]);
      assert JointStep(cfg, n, trace[m - 1], trace[m]);
      StepKeepsJoint(cfg, n, trace[m - 1], trace[m]);
    }
  }

  /** So in a running forwarder, with all its threads reusing numbers, no call of any session reaches a
      socket that is not its own. */
  lemma NoUseAfterClose(cfg: Config, n: nat, trace: seq<Pair>, inner: RelaySession.Step)
    requires IsJointRun(cfg, n, trace)
    requires Own(inner) && RelaySession.Next(trace[|trace| - 1].r, inner).Some?
    ensures var p := trace[|trace| - 1];
      forall t :: t in RelaySession.Touches(p.r, inner) ==> Names(p.s.k, t.0, t.1)
  {
    RunStaysJoint(cfg, n, trace);
    RelaySession.NoUseAfterClose(trace[|trace| - 1].r, inner);
  }

  /** And what each session delivers, in both directions, is a prefix of what its peers sent. */
  lemma DeliveredIsPrefix(cfg: Config, n: nat, trace: seq<Pair>)
    requires IsJointRun(cfg, n, trace)
    ensures var r := trace[|trace| - 1].r; r.up.delivered <= r.client.sent && r.down.delivered <= r.upstream.sent
  {
    RunStaysJoint(cfg, n, trace);
    RelaySession.DeliveredIsPrefix(trace[|trace| - 1].r);
  }

  // The composition holds no session back.

  /** Stop is calling session `n`. */
  predicate Asking(s: State, n: nat) {
    s.control.StopSessions? && s.control.todo != [] && s.control.todo[0] == n
  }

  lemma WorkIsJoint(cfg: Config, n: nat, p: Pair, r': RelaySession.State, z': Session) returns (s': State)
    requires Joint(cfg, n, p) && Works(p.s.sessions[n], z', p.s.k, r'.k)
    ensures exists step :: Next(cfg, p.s, step) == Some(s')
    ensures |s'.sessions| == |p.s.sessions| && s'.sessions[n] == z' && s'.k == r'.k
  {
    if p.s.sessions[n].phase.Fresh? {
      ReachableIsInv(cfg, p.s);
      assert PlaceOk(p.s, n);
      s' := BeginIsStep(cfg, p.s, n);
    } else {
      WorkIsStep(p.s, n);
      s' := WorkerNext(p.s, n).value;
      assert Next(cfg, p.s, Worker(n)) == Some(s');
    }
  }

  lemma BeginIsStep(cfg: Config, s: State, n: nat) returns (s': State)
    requires n < |s.sessions| && s.accept == Accept.Start(n)
    ensures Next(cfg, s, Step.Accept(Go)) == Some(s') && |s'.sessions| == |s.sessions| && s'.k == s.k
    ensures s'.sessions[n] == s.sessions[n].(phase := Relaying)
  {
    s' := With(s, n, s.sessions[n].(phase := Relaying)).(accept := Accept.Top);
  }

  lemma WorkIsStep(s: State, n: nat)
    requires n < |s.sessions|
    requires s.sessions[n].phase.Relaying? || s.sessions[n].phase.HalfClosed? || s.sessions[n].phase.Closed?
    ensures WorkerNext(s, n).Some?
    ensures var s' := WorkerNext(s, n).value;
      |s'.sessions| == |s.sessions| && Works(s.sessions[n], s'.sessions[n], s.k, s'.k)
  {
  }

  /** Every step a session can take, it can take in the forwarder; the end of a call of Stop, when it is
      this session that Stop is calling. */
  lemma SessionIsFree(cfg: Config, n: nat, p: Pair, inner: RelaySession.Step) returns (q: Pair)
    requires Joint(cfg, n, p) && Own(inner) && RelaySession.Next(p.r, inner).Some?
    requires inner.StopperStep? && p.r.stopper.Leaving? ==> Asking(p.s, n)
    ensures JointStep(cfg, n, p, q) && q.r == RelaySession.Next(p.r, inner).value
  {
    var z, r' := p.s.sessions[n], RelaySession.Next(p.r, inner).value;
    var z' := SessionRefines(p.r, inner, z);
    if z' == z && r'.k == p.r.k {
      q := Pair(p.s, r');
      assert Inside(n, p, q, inner);
    } else if inner.WorkerStep? {
      var s' := WorkIsJoint(cfg, n, p, r', z');
      q := Pair(s', r');
      var step :| Next(cfg, p.s, step) == Some(s');
      assert Together(cfg, n, p, q, step, inner);
    } else {
      var s' := With(p.s, n, z').(control := StopSessions(p.s.control.todo[1..], p.s.control.all));
      q := Pair(s', r');
      assert Next(cfg, p.s, Step.Control(Go)) == Some(s');
      assert Together(cfg, n, p, q, Step.Control(Go), inner);
    }
  }
}
