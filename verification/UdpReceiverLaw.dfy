/**
 What the receiver thread of a session does (src/net/forwarder.cpp:584-642), told by its acts in a run,
 and what marks a session and moves its stamp.
 */
module UdpReceiverLaw {
  import opened Sockets
  import opened UdpMachine
  import opened UdpSafety
  import opened UdpHistory
  import opened UdpOrder
  import opened UdpTheorems
  import opened UdpEviction
  import opened UdpLoopLaw

  /** What is due next: `Check`: of the running flag and the mark; `Take`: a datagram from the target;
      `Pass`: that datagram to the client; `Time`: the time of it.  `Ended`: nothing but the mark. */
  datatype Phase = Check | Take | Pass | Time | Ended

  /** `hand`: the datagram taken and not dealt with; `replied`: the datagrams passed on; `failed`: the
      receiver ended for a reason of its own, or found the forwarder stopping. */
  datatype Watch = Watch(phase: Phase, hand: Option<Payload>, replied: seq<Payload>, failed: bool)

  const NEW := Watch(Check, None, [], false)

  /** One more act of the receiver, if it is in order. */
  function Seen(w: Watch, a: Act, running: bool, marked: bool): Option<Watch> {
    match a
    case Go =>
      if w.phase.Check? then
        Some(if running && !marked then w.(phase := Take) else w.(phase := Ended, failed := !running))
      else if w.phase.Take? || w.phase.Ended? then Some(w)
      else None
    case Got(_, data) => if w.phase.Take? then Some(w.(phase := Pass, hand := Some(data))) else None
    case Nothing(transient) =>
      if !w.phase.Take? then None
      else Some(if transient then w.(phase := Check) else w.(phase := Ended, failed := true))
    case Sent(n) =>
      if !w.phase.Pass? || w.hand.None? then None
      else if n > 0 then Some(w.(phase := Time, hand := None, replied := w.replied + [w.hand.value]))
      else Some(w.(phase := Ended, hand := None, failed := true))
    case Now(_) => if w.phase.Time? then Some(w.(phase := Check)) else None
    case _ => None
  }

  /** The watch kept on session `i` over a run. */
  ghost function Watched(cfg: Config, run: seq<Step>, i: nat): Option<Watch>
    requires After(cfg, INITIAL, run).Some?
    decreases |run|
  {
    if run == [] then Some(NEW)
    else
      var last := run[|run| - 1];
      LastStep(cfg, run);
      var s := After(cfg, INITIAL, run[..|run| - 1]).value;
      match Watched(cfg, run[..|run| - 1], i)
      case None => None
      case Some(w) =>
        if last.Receiver? && last.i == i then Seen(w, last.act, s.running, s.sessions[i].marked) else Some(w)
  }

  predicate AtPhase(t: Receiver, w: Watch) {
    match t
    case NotStarted => w.phase.Check?
    case Top => w.phase.Check?
    case Load => w.phase.Take?
    case Have(_) => w.phase.Take?
    case Blocked(_) => w.phase.Take?
    case Replying(_, _) => w.phase.Pass?
    case Touching => w.phase.Time?
    case Marking => w.phase.Ended?
    case Exited => w.phase.Ended?
    case Joined => w.phase.Ended?
  }

  predicate Fits(s: State, i: nat, w: Watch) {
    if i < |s.sessions| then
      && AtPhase(s.sessions[i].thread, w) && w.hand == HeldReply(s.sessions[i].thread)
      && w.replied == RepliedOn(s.replies, s.sessions[i].sock)
    else w == NEW
  }

  // Steps.

  lemma OwnStepMoves(s: State, i: nat, a: Act, w: Watch)
    requires ReceiverNext(s, i, a).Some? && AtPhase(s.sessions[i].thread, w)
    requires w.hand == HeldReply(s.sessions[i].thread)
    ensures var s' := ReceiverNext(s, i, a).value; var w' := Seen(w, a, s.running, s.sessions[i].marked);
      && i < |s'.sessions| && s'.sessions[i].sock == s.sessions[i].sock
      && w'.Some? && AtPhase(s'.sessions[i].thread, w'.value) && w'.value.hand == HeldReply(s'.sessions[i].thread)
  {
  }

  lemma OwnStepReplies(s: State, i: nat, a: Act, w: Watch)
    requires ReceiverNext(s, i, a).Some? && Seen(w, a, s.running, s.sessions[i].marked).Some?
    requires w.hand == HeldReply(s.sessions[i].thread)
    requires s.sessions[i].thread.Replying? ==> s.sessions[i].thread.x == s.sessions[i].sock
    ensures s.sessions[i].thread.Replying? && a.Sent? && a.n > 0 ==>
              RepliedOn(ReceiverNext(s, i, a).value.replies, s.sessions[i].sock)
              == RepliedOn(s.replies, s.sessions[i].sock) + [w.hand.value]
    ensures !(s.sessions[i].thread.Replying? && a.Sent? && a.n > 0) ==>
              ReceiverNext(s, i, a).value.replies == s.replies
  {
    if s.sessions[i].thread.Replying? && a.Sent? && a.n > 0 {
      var z := s.sessions[i];
      ReplyGrows(s.replies, Reply(z.client, z.thread.x, z.thread.payload, a.n), z.sock);
    }
  }

  lemma OwnStepFits(s: State, i: nat, a: Act, w: Watch)
    requires ReceiverNext(s, i, a).Some? && Fits(s, i, w)
    requires s.sessions[i].thread.Replying? ==> s.sessions[i].thread.x == s.sessions[i].sock
    ensures Seen(w, a, s.running, s.sessions[i].marked).Some?
    ensures Fits(ReceiverNext(s, i, a).value, i, Seen(w, a, s.running, s.sessions[i].marked).value)
  {
    OwnStepMoves(s, i, a, w);
    OwnStepReplies(s, i, a, w);
  }

  lemma ForeignReply(s: State, j: nat, a: Act, sock: nat)
    requires ReceiverNext(s, j, a).Some? && sock != s.sessions[j].sock
    requires s.sessions[j].thread.Replying? ==> s.sessions[j].thread.x == s.sessions[j].sock
    ensures RepliedOn(ReceiverNext(s, j, a).value.replies, sock) == RepliedOn(s.replies, sock)
  {
    var s' := ReceiverNext(s, j, a).value;
    ReceiverSends(s, j, a);
    if s'.replies != s.replies {
      var n := |s.replies|;
      assert s'.replies == s.replies + [s'.replies[n]];
      ReplyGrows(s.replies, s'.replies[n], sock);
    }
  }

  /** Another thread starts a receiver or joins it, and does nothing else to it. */
  predicate SameThread(t: Receiver, t': Receiver) {
    t' == t || (t.NotStarted? && t'.Top?) || (t.Exited? && t'.Joined?)
  }

  lemma SendKeepsThread(cfg: Config, s: State, a: Act)
    requires (s.loop.Touch? || s.loop.Send?) && LoopNext(cfg, s, a).Some?
    ensures var s' := LoopNext(cfg, s, a).value; var i := s.loop.i;
      && i < |s.sessions| && s'.replies == s.replies && s'.sessions == s.sessions[i := s'.sessions[i]]
      && s'.sessions[i].thread == s.sessions[i].thread
  {
    TouchOrSendFrame(cfg, s, a);
    var z, z' := s.sessions[s.loop.i], LoopNext(cfg, s, a).value.sessions[s.loop.i];
    assert z'.(lastActive := 0, marked := true, up := z.up).thread == z.(lastActive := 0, marked := true).thread;
  }

  lemma LoopKeepsThread(cfg: Config, s: State, a: Act, i: nat)
    requires LoopNext(cfg, s, a).Some? && i < |s.sessions|
    requires s.loop.Start? && s.loop.i == i ==> s.sessions[i].thread.NotStarted?
    ensures var s' := LoopNext(cfg, s, a).value;
      i < |s'.sessions| && s'.replies == s.replies && SameThread(s.sessions[i].thread, s'.sessions[i].thread)
  {
    if Simple(s) {
      SimpleFrame(cfg, s, a);
    } else if s.loop.Start? {
      StartFrame(cfg, s, a);
    } else if s.loop.Touch? || s.loop.Send? {
      SendKeepsThread(cfg, s, a);
    } else if s.loop.Select? {
      SelectFrame(cfg, s, a);
    } else if s.loop.Sweep? {
      SweepFrame(cfg, s, a);
    }
  }

  lemma OthersKeepThread(cfg: Config, s: State, step: Step, i: nat)
    requires Inv(cfg, s) && Next(cfg, s, step).Some? && i < |s.sessions| && !(step.Receiver? && step.i == i)
    ensures var s' := Next(cfg, s, step).value;
      i < |s'.sessions| && SameThread(s.sessions[i].thread, s'.sessions[i].thread)
    ensures !step.Receiver? ==> Next(cfg, s, step).value.replies == s.replies
  {
    match step {
      case Receiver(j, a) => ReceiverFrame(s, j, a);
      case Resolver(a) => ResolverFrame(cfg, s, a);
      case Control(a) => UdpHistory.ControlFrame(cfg, s, a);
      case Loop(a) =>
        if s.loop.Start? { UdpStop.StartIsFirst(cfg, s); }
        LoopKeepsThread(cfg, s, a, i);
    }
  }

  lemma OthersKeepReplies(cfg: Config, s: State, step: Step, i: nat)
    requires Inv(cfg, s) && Next(cfg, s, step).Some? && i < |s.sessions| && !(step.Receiver? && step.i == i)
    ensures RepliedOn(Next(cfg, s, step).value.replies, s.sessions[i].sock) == RepliedOn(s.replies, s.sessions[i].sock)
  {
    if step.Receiver? {
      assert SessionOk(s.sessions[step.i], PlaceOf(s, step.i), s.k);
      ForeignReply(s, step.i, step.act, s.sessions[i].sock);
    } else {
      OthersKeepThread(cfg, s, step, i);
    }
  }

  lemma OldStaysFit(s: State, s': State, i: nat, w: Watch)
    requires i < |s.sessions| && i < |s'.sessions| && Fits(s, i, w) && s'.sessions[i].sock == s.sessions[i].sock
    requires SameThread(s.sessions[i].thread, s'.sessions[i].thread)
    requires RepliedOn(s'.replies, s.sessions[i].sock) == RepliedOn(s.replies, s.sessions[i].sock)
    ensures Fits(s', i, w)
  {
  }

  lemma OthersFit(cfg: Config, s: State, step: Step, i: nat, w: Watch)
    requires Good(cfg, s) && Next(cfg, s, step).Some? && !(step.Receiver? && step.i == i) && Fits(s, i, w)
    ensures Fits(Next(cfg, s, step).value, i, w)
  {
    var s' := Next(cfg, s, step).value;
    if i < |s.sessions| {
      StepContinues(cfg, s, step);
      assert SameRecord(s.sessions[i], s'.sessions[i]);
      OthersKeepThread(cfg, s, step, i);
      OthersKeepReplies(cfg, s, step, i);
      OldStaysFit(s, s', i, w);
    } else if i < |s'.sessions| {
      NewFits(cfg, s, step, i);
    }
  }

  lemma NewFits(cfg: Config, s: State, step: Step, i: nat)
    requires Good(cfg, s) && Next(cfg, s, step).Some? && |s.sessions| <= i < |Next(cfg, s, step).value.sessions|
    ensures Fits(Next(cfg, s, step).value, i, NEW)
  {
    var s' := Next(cfg, s, step).value;
    NewThread(cfg, s, step, i);
    NewSessionIsFresh(cfg, s, step, i);
    FreshFits(s', i);
  }

  lemma NewThread(cfg: Config, s: State, step: Step, i: nat)
    requires Inv(cfg, s) && Next(cfg, s, step).Some? && |s.sessions| <= i < |Next(cfg, s, step).value.sessions|
    ensures Next(cfg, s, step).value.sessions[i].thread.NotStarted?
  {
    OnlyInsertAdds(cfg, s, step);
    assert i == |s.sessions|;
  }

  lemma FreshFits(s: State, i: nat)
    requires i < |s.sessions| && s.sessions[i].thread.NotStarted? && RepliedOn(s.replies, s.sessions[i].sock) == []
    ensures Fits(s, i, NEW)
  {
  }

  /** The law of a receiver: in every run its acts are in order; the datagram in hand is the last it took, and
      the replies passed on are exactly those it took and then sent with success, in this order. */
  lemma {:induction false} ReceiverKeepsOrder(cfg: Config, run: seq<Step>, i: nat)
    requires After(cfg, INITIAL, run).Some?
    ensures Watched(cfg, run, i).Some? && Fits(After(cfg, INITIAL, run).value, i, Watched(cfg, run, i).value)
    decreases |run|
  {
    if run != [] {
      var most, last := run[..|run| - 1], run[|run| - 1];
      LastStep(cfg, run);
      ReceiverKeepsOrder(cfg, most, i);
      var s, w := After(cfg, INITIAL, most).value, Watched(cfg, most, i).value;
      if last.Receiver? && last.i == i {
        assert SessionOk(s.sessions[i], PlaceOf(s, i), s.k);
        OwnStepFits(s, i, last.act, w);
      } else {
        OthersFit(cfg, s, last, i, w);
      }
    }
  }

  // Marks.

  /** The loop is dealing with a datagram of the client that has session `i`. */
  predicate Serves(s: State, i: nat) {
    InHand(s.loop).Some? && Bound(s, InHand(s.loop).value.0, i)
  }

  predicate LoopFails(s: State, step: Step, i: nat) {
    step.Loop? && step.act.Sent? && step.act.n <= 0 && Serves(s, i)
  }

  /** In the run the loop failed to send a datagram for session `i`. */
  ghost predicate LoopFailed(cfg: Config, run: seq<Step>, i: nat)
    requires After(cfg, INITIAL, run).Some?
    decreases |run|
  {
    run != []
    && (LastStep(cfg, run);
        LoopFailed(cfg, run[..|run| - 1], i)
        || LoopFails(After(cfg, INITIAL, run[..|run| - 1]).value, run[|run| - 1], i))
  }

  predicate Left(s: State, s': State, i: nat) {
    Listed(s, i) && !Listed(s', i)
  }

  /** What a step of another thread does to the mark of a session. */
  predicate Marks(s: State, s': State, step: Step, i: nat)
    requires i < |s.sessions| && i < |s'.sessions|
  {
    && (s'.sessions[i].marked <==> s.sessions[i].marked || LoopFails(s, step, i) || Left(s, s', i))
    && (Listed(s', i) ==> Listed(s, i))
  }

  lemma SendMarks(cfg: Config, s: State, a: Act, i: nat)
    requires (s.loop.Touch? || s.loop.Send?) && LoopNext(cfg, s, a).Some? && i < |s.sessions|
    requires Bound(s, s.loop.client, s.loop.i)
    ensures i < |LoopNext(cfg, s, a).value.sessions| && Marks(s, LoopNext(cfg, s, a).value, Step.Loop(a), i)
  {
    TouchOrSendFrame(cfg, s, a);
    assert Serves(s, i) <==> i == s.loop.i;
  }

  lemma SelectMarks(cfg: Config, s: State, a: Act, i: nat)
    requires s.loop.Select? && LoopNext(cfg, s, a).Some? && i < |s.sessions| && TableOk(s)
    ensures i < |LoopNext(cfg, s, a).value.sessions| && Marks(s, LoopNext(cfg, s, a).value, Step.Loop(a), i)
  {
    SelectFrame(cfg, s, a);
    SelectedListed(cfg, s, s.loop.force, a.now, a.order, i);
  }

  lemma SweepMarks(cfg: Config, s: State, a: Act, i: nat)
    requires s.loop.Sweep? && LoopNext(cfg, s, a).Some? && i < |s.sessions|
    ensures i < |LoopNext(cfg, s, a).value.sessions| && Marks(s, LoopNext(cfg, s, a).value, Step.Loop(a), i)
  {
    SweepFrame(cfg, s, a);
  }

  lemma MakingMarks(cfg: Config, s: State, a: Act, i: nat)
    requires (s.loop.Opening? || s.loop.Insert? || s.loop.Start?) && LoopNext(cfg, s, a).Some? && i < |s.sessions|
    requires s.loop.Insert? ==> s.loop.client !in s.table
    ensures i < |LoopNext(cfg, s, a).value.sessions| && Marks(s, LoopNext(cfg, s, a).value, Step.Loop(a), i)
  {
  }

  lemma LoopMarks(cfg: Config, s: State, a: Act, i: nat)
    requires Inv(cfg, s) && LoopNext(cfg, s, a).Some? && i < |s.sessions|
    ensures i < |LoopNext(cfg, s, a).value.sessions| && Marks(s, LoopNext(cfg, s, a).value, Step.Loop(a), i)
  {
    if Simple(s) {
      SimpleFrame(cfg, s, a);
      SimpleSendsNothing(cfg, s, a);
    } else if s.loop.Touch? || s.loop.Send? {
      SendMarks(cfg, s, a, i);
    } else if s.loop.Select? {
      SelectMarks(cfg, s, a, i);
    } else if s.loop.Sweep? {
      SweepMarks(cfg, s, a, i);
    } else {
      MakingMarks(cfg, s, a, i);
    }
  }

  lemma SimpleSendsNothing(cfg: Config, s: State, a: Act)
    requires Simple(s) && LoopNext(cfg, s, a).Some?
    ensures !a.Sent?
  {
  }

  lemma OthersMark(cfg: Config, s: State, step: Step, i: nat)
    requires Inv(cfg, s) && Next(cfg, s, step).Some? && i < |s.sessions| && !(step.Receiver? && step.i == i)
    ensures i < |Next(cfg, s, step).value.sessions| && Marks(s, Next(cfg, s, step).value, step, i)
  {
    match step {
      case Receiver(j, a) => ReceiverFrame(s, j, a);
      case Resolver(a) => ResolverFrame(cfg, s, a);
      case Control(a) => UdpHistory.ControlFrame(cfg, s, a);
      case Loop(a) => LoopMarks(cfg, s, a, i);
    }
  }

  /** The mark of a session, its receiver and the loop: `f` says that the loop failed to send for it. */
  predicate Accounted(s: State, i: nat, w: Watch, f: bool) {
    if i < |s.sessions| then
      var z := s.sessions[i];
      && AtPhase(z.thread, w) && (w.failed ==> w.phase.Ended?)
      && (z.marked <==> f || z.thread.Exited? || z.thread.Joined? || !Listed(s, i))
      && (Listed(s, i) && (z.marked || w.phase.Ended?) ==> w.failed || f)
    else w == NEW && !f
  }

  lemma OwnStepMarks(s: State, i: nat, a: Act)
    requires ReceiverNext(s, i, a).Some?
    ensures var z, z' := s.sessions[i], ReceiverNext(s, i, a).value.sessions[i];
      && (z'.marked <==> z.marked || z.thread.Marking?)
      && (z'.thread.Exited? <==> z.thread.Marking?) && !z'.thread.Joined? && !z.thread.Exited? && !z.thread.Joined?
  {
  }

  lemma OwnStepAccounts(s: State, i: nat, a: Act, w: Watch, f: bool)
    requires ReceiverNext(s, i, a).Some? && Fits(s, i, w) && Accounted(s, i, w, f)
    requires s.sessions[i].thread.Replying? ==> s.sessions[i].thread.x == s.sessions[i].sock
    ensures Seen(w, a, s.running, s.sessions[i].marked).Some?
    ensures Accounted(ReceiverNext(s, i, a).value, i, Seen(w, a, s.running, s.sessions[i].marked).value, f)
  {
    OwnStepMoves(s, i, a, w);
    OwnStepMarks(s, i, a);
    ReceiverFrame(s, i, a);
    var s' := ReceiverNext(s, i, a).value;
    assert Listed(s', i) <==> Listed(s, i);
  }

  lemma OtherStepAccounts(s: State, s': State, step: Step, i: nat, w: Watch, f: bool)
    requires i < |s.sessions| && i < |s'.sessions| && Accounted(s, i, w, f) && Marks(s, s', step, i)
    requires SameThread(s.sessions[i].thread, s'.sessions[i].thread)
    requires s'.sessions[i].thread.Joined? && !s.sessions[i].thread.Joined? ==> !Listed(s', i)
    ensures Accounted(s', i, w, f || LoopFails(s, step, i))
  {
  }

  lemma NewAccounts(cfg: Config, s: State, step: Step, i: nat)
    requires Good(cfg, s) && Next(cfg, s, step).Some? && |s.sessions| <= i < |Next(cfg, s, step).value.sessions|
    ensures Accounted(Next(cfg, s, step).value, i, NEW, false)
  {
    var s' := Next(cfg, s, step).value;
    NewThread(cfg, s, step, i);
    StepKeepsInv(cfg, s, step);
    NotStartedIsFresh(s', i);
    NewIsUnmarked(cfg, s, step, i);
  }

  lemma NotStartedIsFresh(s: State, i: nat)
    requires TableOk(s) && i < |s.sessions| && s.sessions[i].thread.NotStarted?
    ensures Listed(s, i)
  {
    assert SessionOk(s.sessions[i], PlaceOf(s, i), s.k);
  }

  lemma NewIsUnmarked(cfg: Config, s: State, step: Step, i: nat)
    requires Inv(cfg, s) && Next(cfg, s, step).Some? && |s.sessions| <= i < |Next(cfg, s, step).value.sessions|
    ensures !Next(cfg, s, step).value.sessions[i].marked
  {
    match step {
      case Receiver(j, a) => ReceiverFrame(s, j, a);
      case Resolver(a) => ResolverFrame(cfg, s, a);
      case Control(a) => UdpHistory.ControlFrame(cfg, s, a);
      case Loop(a) => LoopAddsUnmarked(cfg, s, a, i);
    }
  }

  lemma LoopAddsUnmarked(cfg: Config, s: State, a: Act, i: nat)
    requires LoopNext(cfg, s, a).Some? && |s.sessions| <= i < |LoopNext(cfg, s, a).value.sessions|
    ensures !LoopNext(cfg, s, a).value.sessions[i].marked
  {
    LoopCacheFrame(cfg, s, a);
  }

  /** Only sessions out of the table are joined. */
  lemma JoinedIsOut(s: State, i: nat)
    requires TableOk(s) && i < |s.sessions| && s.sessions[i].thread.Joined?
    ensures !Listed(s, i)
  {
    assert SessionOk(s.sessions[i], PlaceOf(s, i), s.k);
  }

  lemma StepAccounts(cfg: Config, s: State, step: Step, i: nat, w: Watch, f: bool)
    requires Good(cfg, s) && Next(cfg, s, step).Some? && !(step.Receiver? && step.i == i) && Accounted(s, i, w, f)
    ensures Accounted(Next(cfg, s, step).value, i, w, f || LoopFails(s, step, i))
  {
    var s' := Next(cfg, s, step).value;
    if i < |s.sessions| {
      OthersKeepThread(cfg, s, step, i);
      OthersMark(cfg, s, step, i);
      StepKeepsInv(cfg, s, step);
      if s'.sessions[i].thread.Joined? { JoinedIsOut(s', i); }
      OtherStepAccounts(s, s', step, i, w, f);
    } else if i < |s'.sessions| {
      NewAccounts(cfg, s, step, i);
    }
  }

  lemma {:induction false} MarksAreAccounted(cfg: Config, run: seq<Step>, i: nat)
    requires After(cfg, INITIAL, run).Some?
    ensures Watched(cfg, run, i).Some?
    ensures Accounted(After(cfg, INITIAL, run).value, i, Watched(cfg, run, i).value, LoopFailed(cfg, run, i))
    decreases |run|
  {
    ReceiverKeepsOrder(cfg, run, i);
    if run != [] {
      var most, last := run[..|run| - 1], run[|run| - 1];
      LastStep(cfg, run);
      MarksAreAccounted(cfg, most, i);
      ReceiverKeepsOrder(cfg, most, i);
      var s, w, f := After(cfg, INITIAL, most).value, Watched(cfg, most, i).value, LoopFailed(cfg, most, i);
      if last.Receiver? && last.i == i {
        assert SessionOk(s.sessions[i], PlaceOf(s, i), s.k);
        OwnStepAccounts(s, i, last.act, w, f);
      } else {
        StepAccounts(cfg, s, last, i, w, f);
      }
    }
  }

  /** A session in the table is marked, or its receiver is about to mark it, if and only if the loop failed
      to send for it, or its receiver failed to receive or to send, or its receiver found the
      forwarder stopping.  A receiver has ended only for one of these reasons. */
  lemma MarkedForACause(cfg: Config, run: seq<Step>, i: nat)
    requires After(cfg, INITIAL, run).Some? && Listed(After(cfg, INITIAL, run).value, i)
    ensures var z := After(cfg, INITIAL, run).value.sessions[i];
      && Watched(cfg, run, i).Some?
      && (z.marked || z.thread.Marking? <==> LoopFailed(cfg, run, i) || Watched(cfg, run, i).value.failed)
      && (z.thread.Exited? ==> z.marked)
      && (LoopFailed(cfg, run, i) ==> z.marked)
  {
    MarksAreAccounted(cfg, run, i);
  }

  /** The receiver's call to receive or to send fails. */
  predicate OwnFailure(step: Step, i: nat) {
    step.Receiver? && step.i == i
    && ((step.act.Nothing? && !step.act.transient) || (step.act.Sent? && step.act.n <= 0))
  }

  /** Step `k` of the run is such a failure, or the receiver moves on when the running flag is down. */
  ghost predicate CauseAt(cfg: Config, run: seq<Step>, k: nat, i: nat) {
    && k < |run| && run[k].Receiver? && run[k].i == i
    && (OwnFailure(run[k], i)
        || (run[k].act.Go? && After(cfg, INITIAL, run[..k]).Some? && !After(cfg, INITIAL, run[..k]).value.running))
  }

  ghost predicate Caused(cfg: Config, run: seq<Step>, i: nat) {
    exists k: nat :: CauseAt(cfg, run, k, i)
  }

  lemma SeenFails(w: Watch, step: Step, running: bool, marked: bool, i: nat)
    requires step.Receiver? && step.i == i && Seen(w, step.act, running, marked).Some?
    requires w.failed ==> w.phase.Ended?
    ensures Seen(w, step.act, running, marked).value.failed
       <==> w.failed || OwnFailure(step, i) || (step.act.Go? && w.phase.Check? && !running)
  {
  }

  /** How `failed` moves with the last step of a run. */
  lemma FailureGrows(cfg: Config, run: seq<Step>, i: nat)
    requires run != [] && After(cfg, INITIAL, run).Some?
    ensures var most, last := run[..|run| - 1], run[|run| - 1];
      && After(cfg, INITIAL, most).Some? && Watched(cfg, most, i).Some? && Watched(cfg, run, i).Some?
      && (Watched(cfg, most, i).value.failed || OwnFailure(last, i) ==> Watched(cfg, run, i).value.failed)
      && (Watched(cfg, run, i).value.failed ==> Watched(cfg, most, i).value.failed || CauseAt(cfg, run, |most|, i))
  {
    var most, last := run[..|run| - 1], run[|run| - 1];
    LastStep(cfg, run);
    ReceiverKeepsOrder(cfg, run, i);
    EndIsFinal(cfg, most, i);
    var s, w := After(cfg, INITIAL, most).value, Watched(cfg, most, i).value;
    if last.Receiver? && last.i == i {
      SeenFails(w, last, s.running, s.sessions[i].marked, i);
    }
  }

  /** What `failed` in the watch means. */
  lemma {:induction false} FailuresAreOwn(cfg: Config, run: seq<Step>, i: nat)
    requires After(cfg, INITIAL, run).Some?
    ensures Watched(cfg, run, i).Some?
    ensures Watched(cfg, run, i).value.failed ==> Caused(cfg, run, i)
    ensures (exists k :: 0 <= k < |run| && OwnFailure(run[k], i)) ==> Watched(cfg, run, i).value.failed
    decreases |run|
  {
    if run == [] {
      ReceiverKeepsOrder(cfg, run, i);
    } else {
      var most := run[..|run| - 1];
      FailureGrows(cfg, run, i);
      FailuresAreOwn(cfg, most, i);
      if Watched(cfg, most, i).value.failed { CauseStays(cfg, run, i); }
      forall k | 0 <= k < |run| && OwnFailure(run[k], i) ensures Watched(cfg, run, i).value.failed {
        assert k < |most| ==> most[k] == run[k];
      }
    }
  }

  lemma CauseStays(cfg: Config, run: seq<Step>, i: nat)
    requires run != [] && Caused(cfg, run[..|run| - 1], i)
    ensures Caused(cfg, run, i)
  {
    var k: nat :| CauseAt(cfg, run[..|run| - 1], k, i);
    assert run[..k] == run[..|run| - 1][..k];
    assert CauseAt(cfg, run, k, i);
  }

  lemma EndIsFinal(cfg: Config, run: seq<Step>, i: nat)
    requires After(cfg, INITIAL, run).Some?
    ensures Watched(cfg, run, i).Some?
    ensures Watched(cfg, run, i).value.failed ==> Watched(cfg, run, i).value.phase.Ended?
  {
    MarksAreAccounted(cfg, run, i);
  }

  /** The last thing a receiver does is to mark its session, and it cannot help doing it. */
  lemma EndMarks(s: State, i: nat, a: Act)
    requires i < |s.sessions| && s.sessions[i].thread.Marking?
    ensures ReceiverNext(s, i, a).Some? <==> a.Go?
    ensures a.Go? ==> ReceiverNext(s, i, a).value.sessions[i].marked
  {
  }

  // Stamps.

  /** The time a step puts on session `i`; `s'` is the state after it.  It is the time of a datagram of its
      client, read by the loop, or that of a reply, read by its receiver. */
  function StampBy(s': State, step: Step, i: nat): Option<int> {
    if step.Receiver? && step.i == i && step.act.Now? then Some(step.act.now)
    else if step.Loop? && step.act.Now? && Serves(s', i) then Some(step.act.now)
    else None
  }

  ghost function LastStamp(cfg: Config, run: seq<Step>, i: nat): Option<int>
    requires After(cfg, INITIAL, run).Some?
    decreases |run|
  {
    if run == [] then None
    else
      LastStep(cfg, run);
      var now := StampBy(After(cfg, INITIAL, run).value, run[|run| - 1], i);
      if now.Some? then now else LastStamp(cfg, run[..|run| - 1], i)
  }

  predicate Stamped(s: State, i: nat, stamp: Option<int>) {
    if i < |s.sessions| then stamp == Some(s.sessions[i].lastActive) else stamp == None
  }

  predicate StampMoves(s: State, s': State, step: Step, i: nat) {
    && |s.sessions| <= |s'.sessions|
    && (if i < |s.sessions| then
          s'.sessions[i].lastActive == (if StampBy(s', step, i).Some? then StampBy(s', step, i).value
                                        else s.sessions[i].lastActive)
        else if i < |s'.sessions| then StampBy(s', step, i) == Some(s'.sessions[i].lastActive)
        else StampBy(s', step, i) == None)
  }

  lemma ReceiverStamps(s: State, j: nat, a: Act, i: nat)
    requires ReceiverNext(s, j, a).Some?
    ensures StampMoves(s, ReceiverNext(s, j, a).value, Step.Receiver(j, a), i)
  {
  }

  lemma SendingStamps(cfg: Config, s: State, a: Act, i: nat)
    requires (s.loop.Touch? || s.loop.Send?) && LoopNext(cfg, s, a).Some? && Bound(s, s.loop.client, s.loop.i)
    ensures StampMoves(s, LoopNext(cfg, s, a).value, Step.Loop(a), i)
  {
  }

  lemma MakingStamps(cfg: Config, s: State, a: Act, i: nat)
    requires (s.loop.Opening? || s.loop.Insert? || s.loop.Start?) && LoopNext(cfg, s, a).Some?
    requires s.loop.Insert? ==> s.loop.client !in s.table
    ensures StampMoves(s, LoopNext(cfg, s, a).value, Step.Loop(a), i)
  {
  }

  lemma SweepingStamps(cfg: Config, s: State, a: Act, i: nat)
    requires (s.loop.Select? || s.loop.Sweep?) && LoopNext(cfg, s, a).Some?
    ensures StampMoves(s, LoopNext(cfg, s, a).value, Step.Loop(a), i)
  {
    if s.loop.Select? { SelectFrame(cfg, s, a); } else { SweepFrame(cfg, s, a); }
  }

  lemma SimpleStamps(cfg: Config, s: State, a: Act, i: nat)
    requires Simple(s) && LoopNext(cfg, s, a).Some?
    ensures StampMoves(s, LoopNext(cfg, s, a).value, Step.Loop(a), i)
  {
    SimpleFrame(cfg, s, a);
    if a.Now? { SimpleReadsNoStamp(cfg, s, a); }
  }

  lemma SimpleReadsNoStamp(cfg: Config, s: State, a: Act)
    requires Simple(s) && LoopNext(cfg, s, a).Some? && a.Now?
    ensures InHand(LoopNext(cfg, s, a).value.loop).None?
  {
  }

  lemma StepStamps(cfg: Config, s: State, step: Step, i: nat)
    requires Inv(cfg, s) && Next(cfg, s, step).Some?
    ensures StampMoves(s, Next(cfg, s, step).value, step, i)
  {
    match step {
      case Receiver(j, a) => ReceiverStamps(s, j, a, i);
      case Resolver(a) => ResolverFrame(cfg, s, a);
      case Control(a) => UdpHistory.ControlFrame(cfg, s, a);
      case Loop(a) =>
        if Simple(s) {
          SimpleStamps(cfg, s, a, i);
        } else if s.loop.Touch? || s.loop.Send? {
          SendingStamps(cfg, s, a, i);
        } else if s.loop.Select? || s.loop.Sweep? {
          SweepingStamps(cfg, s, a, i);
        } else {
          MakingStamps(cfg, s, a, i);
        }
    }
  }

  /** In every run the stamp of a session is the time last read for it: by the loop with a datagram of its
      client in hand, or by its receiver after a reply. */
  lemma {:induction false} StampIsLast(cfg: Config, run: seq<Step>, i: nat)
    requires After(cfg, INITIAL, run).Some?
    ensures Stamped(After(cfg, INITIAL, run).value, i, LastStamp(cfg, run, i))
    decreases |run|
  {
    if run != [] {
      var most, last := run[..|run| - 1], run[|run| - 1];
      LastStep(cfg, run);
      StampIsLast(cfg, most, i);
      StepStamps(cfg, After(cfg, INITIAL, most).value, last, i);
    }
  }

  // The receiver serves.

  /** While its session is in the table, a receiver uses the session's own socket. */
  predicate TakesOwn(s: State, i: nat) {
    Listed(s, i) ==>
      var z := s.sessions[i];
      && (z.thread.Have? ==> z.thread.h == z.handle)
      && (z.thread.Blocked? ==> z.thread.on == Some(z.sock))
  }

  lemma OwnStepTakesOwn(s: State, i: nat, a: Act)
    requires ReceiverNext(s, i, a).Some? && TakesOwn(s, i) && SessionOk(s.sessions[i], PlaceOf(s, i), s.k)
    ensures TakesOwn(ReceiverNext(s, i, a).value, i)
  {
    ReceiverFrame(s, i, a);
    assert Listed(ReceiverNext(s, i, a).value, i) <==> Listed(s, i);
  }

  lemma OtherStepTakesOwn(s: State, s': State, i: nat)
    requires i < |s.sessions| && i < |s'.sessions| && TakesOwn(s, i) && (Listed(s', i) ==> Listed(s, i))
    requires SameThread(s.sessions[i].thread, s'.sessions[i].thread)
    requires Listed(s', i) ==> s'.sessions[i].handle == s.sessions[i].handle
    requires s'.sessions[i].sock == s.sessions[i].sock
    ensures TakesOwn(s', i)
  {
  }

  /** In the table the handle is the session's number. */
  lemma ListedHandle(s: State, i: nat)
    requires TableOk(s) && Listed(s, i)
    ensures s.sessions[i].handle == s.sessions[i].fd && Names(s.k, s.sessions[i].fd, s.sessions[i].sock)
    ensures IsOpen(s.k, s.sessions[i].sock)
  {
    assert SessionOk(s.sessions[i], PlaceOf(s, i), s.k);
  }

  lemma StepTakesOwn(cfg: Config, s: State, step: Step, i: nat)
    requires Good(cfg, s) && Next(cfg, s, step).Some? && TakesOwn(s, i)
    ensures TakesOwn(Next(cfg, s, step).value, i)
  {
    var s' := Next(cfg, s, step).value;
    if step.Receiver? && step.i == i {
      assert SessionOk(s.sessions[i], PlaceOf(s, i), s.k);
      OwnStepTakesOwn(s, i, step.act);
    } else if i < |s.sessions| {
      OthersKeepThread(cfg, s, step, i);
      OthersMark(cfg, s, step, i);
      StepKeepsInv(cfg, s, step);
      StepContinues(cfg, s, step);
      assert SameRecord(s.sessions[i], s'.sessions[i]);
      if Listed(s', i) {
        ListedHandle(s, i);
        ListedHandle(s', i);
      }
      OtherStepTakesOwn(s, s', i);
    } else if i < |s'.sessions| {
      NewThread(cfg, s, step, i);
    }
  }

  lemma {:induction false} RunTakesOwn(cfg: Config, run: seq<Step>, i: nat)
    requires After(cfg, INITIAL, run).Some?
    ensures TakesOwn(After(cfg, INITIAL, run).value, i)
    decreases |run|
  {
    if run != [] {
      LastStep(cfg, run);
      RunTakesOwn(cfg, run[..|run| - 1], i);
      StepTakesOwn(cfg, After(cfg, INITIAL, run[..|run| - 1]).value, run[|run| - 1], i);
    }
  }

  /** An answer the environment may give at the point where the receiver is. */
  predicate MayAnswer(s: State, t: Receiver, a: Act) {
    match t
    case NotStarted => false
    case Exited => false
    case Joined => false
    case Blocked(_) => (a.Got? && a.data != []) || a.Nothing?
    case Replying(p, _) => a.Sent? && a.n <= |p|
    case Touching => a.Now? && Tick(s, a.now)
    case _ => a.Go?
  }

  /** Steps of a receiver until it waits for a datagram again. */
  function Distance(t: Receiver): nat {
    match t
    case Have(_) => 1
    case Load => 2
    case Top => 3
    case Touching => 4
    case Replying(_, _) => 5
    case _ => 0
  }

  /** The receiver of a session in the table waits on the session's own socket, which is open, and takes
      every answer; while the forwarder is up and the session is not marked it ends for nothing but a failed
      call and is back at the receive call after at most five steps. */
  lemma ReceiverServes(cfg: Config, s: State, i: nat, a: Act)
    requires Reachable(cfg, s) && Listed(s, i)
    ensures s.sessions[i].thread.Blocked? ==> s.sessions[i].thread.on == Some(s.sessions[i].sock)
    ensures IsOpen(s.k, s.sessions[i].sock)
    ensures MayAnswer(s, s.sessions[i].thread, a) ==> ReceiverNext(s, i, a).Some?
    ensures s.running && !s.sessions[i].marked && !s.sessions[i].thread.Blocked? && ReceiverNext(s, i, a).Some? ==>
              var t, t' := s.sessions[i].thread, ReceiverNext(s, i, a).value.sessions[i].thread;
              Distance(t') < Distance(t) <= 5 || t.Marking? || (t.Replying? && a.n <= 0 && t'.Marking?)
  {
    var run :| After(cfg, INITIAL, run) == Some(s);
    RunTakesOwn(cfg, run, i);
    ReachableIsGood(cfg, s);
    ListedHandle(s, i);
    ReceiverComesBack(s, i, a);
  }

  lemma ReceiverComesBack(s: State, i: nat, a: Act)
    requires i < |s.sessions| && (s.sessions[i].thread.Blocked? ==> s.sessions[i].thread.on.Some?)
    ensures MayAnswer(s, s.sessions[i].thread, a) ==> ReceiverNext(s, i, a).Some?
    ensures s.running && !s.sessions[i].marked && !s.sessions[i].thread.Blocked? && ReceiverNext(s, i, a).Some? ==>
              var t, t' := s.sessions[i].thread, ReceiverNext(s, i, a).value.sessions[i].thread;
              Distance(t') < Distance(t) <= 5 || t.Marking? || (t.Replying? && a.n <= 0 && t'.Marking?)
  {
  }
}
