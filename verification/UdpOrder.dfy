/**
 The UDP forwarder invents, repeats and reorders nothing: what it passes on is a subsequence of what
 arrived, for the datagrams of all clients taken together and for the replies of each session.
 */
module UdpOrder {
  import opened Sockets
  import opened UdpMachine
  import opened UdpSafety
  import opened UdpHistory
  import UdpTheorems

  ghost predicate Subsequence<T(!new)>(a: seq<T>, b: seq<T>)
    decreases b
  {
    || a == []
    || (b != [] && (Subsequence(a, b[..|b| - 1])
                    || (a[|a| - 1] == b[|b| - 1] && Subsequence(a[..|a| - 1], b[..|b| - 1]))))
  }

  lemma Skips<T(!new)>(a: seq<T>, b: seq<T>, x: T)
    requires Subsequence(a, b)
    ensures Subsequence(a, b + [x])
  {
    assert (b + [x])[..|b|] == b;
  }

  lemma Takes<T(!new)>(a: seq<T>, b: seq<T>, x: T)
    requires Subsequence(a, b)
    ensures Subsequence(a + [x], b + [x])
  {
    assert (b + [x])[..|b|] == b && (a + [x])[..|a|] == a;
  }

  // What arrived in a run: what the receive calls of a thread returned.

  function Arrived(run: seq<Step>): seq<(string, Payload)> {
    if run == [] then []
    else Arrived(run[..|run| - 1]) + ArrivedBy(run[|run| - 1])
  }

  function ArrivedBy(step: Step): seq<(string, Payload)> {
    if step.Loop? && step.act.Got? then [(step.act.from, step.act.data)] else []
  }

  function Taken(run: seq<Step>, i: nat): seq<Payload> {
    if run == [] then [] else Taken(run[..|run| - 1], i) + TakenBy(run[|run| - 1], i)
  }

  function TakenBy(step: Step, i: nat): seq<Payload> {
    if step.Receiver? && step.i == i && step.act.Got? then [step.act.data] else []
  }

  // What was passed on.

  function Passed(forwards: seq<Forward>): seq<(string, Payload)> {
    if forwards == [] then []
    else Passed(forwards[..|forwards| - 1]) + [(forwards[|forwards| - 1].peer, forwards[|forwards| - 1].took)]
  }

  function RepliedOn(replies: seq<Reply>, sock: nat): seq<Payload> {
    if replies == [] then []
    else
      var last := replies[|replies| - 1];
      RepliedOn(replies[..|replies| - 1], sock) + if last.sock == sock then [last.took] else []
  }

  /** The datagram the loop is working on. */
  function InHand(l: Loop): Option<(string, Payload)> {
    match l
    case Find(c, p) => Some((c, p))
    case Snapshot(c, p) => Some((c, p))
    case Opening(c, p, _) => Some((c, p))
    case Insert(c, p, _, _, _, _, _) => Some((c, p))
    case Start(c, _, p) => Some((c, p))
    case Touch(c, _, p) => Some((c, p))
    case Send(c, _, p) => Some((c, p))
    case _ => None
  }

  function HeldReply(t: Receiver): Option<Payload> {
    if t.Replying? then Some(t.payload) else None
  }

  /** `sent` comes from `came`; a datagram in hand is the last that came, and not yet used. */
  ghost predicate Follows<T(!new)>(sent: seq<T>, hand: Option<T>, came: seq<T>) {
    if hand.Some? then came != [] && came[|came| - 1] == hand.value && Subsequence(sent, came[..|came| - 1])
    else Subsequence(sent, came)
  }

  /** What one step may do: nothing, drop the datagram in hand, take the next, or send the one in hand. */
  predicate Handles<T(==)>(sent: seq<T>, hand: Option<T>, came: seq<T>, sent': seq<T>, hand': Option<T>) {
    || (came == [] && sent' == sent && (hand' == hand || hand' == None))
    || (|came| == 1 && hand == None && sent' == sent && hand' == Some(came[0]))
    || (came == [] && hand.Some? && hand' == None && sent' == sent + [hand.value])
  }

  lemma HandlingFollows<T(!new)>(sent: seq<T>, hand: Option<T>, before: seq<T>, came: seq<T>, sent': seq<T>,
          hand': Option<T>)
    requires Follows(sent, hand, before) && Handles(sent, hand, came, sent', hand')
    ensures Follows(sent', hand', before + came)
  {
    assert came == [] ==> before + came == before;
    if hand.Some? && hand' == None {
      var n := |before| - 1;
      assert before == before[..n] + [hand.value];
      Skips(sent, before[..n], hand.value);
      Takes(sent, before[..n], hand.value);
    } else if |came| == 1 {
      assert (before + came)[..|before|] == before;
    }
  }

  // Steps.

  lemma {:induction false} SentGrows(forwards: seq<Forward>, f: Forward)
    ensures Passed(forwards + [f]) == Passed(forwards) + [(f.peer, f.took)]
  {
    assert (forwards + [f])[..|forwards|] == forwards;
  }

  lemma LoopSends(cfg: Config, s: State, a: Act)
    requires LoopNext(cfg, s, a).Some?
    ensures var s' := LoopNext(cfg, s, a).value;
      && (s'.forwards == s.forwards
          || (s.loop.Send? && s'.loop.Maybe?
              && |s'.forwards| == |s.forwards| + 1 && s'.forwards[..|s.forwards|] == s.forwards
              && InHand(s.loop) == Some((s'.forwards[|s.forwards|].peer, s'.forwards[|s.forwards|].took))
              && s.loop.i < |s.sessions|
              && Lookup(s.k, s.sessions[s.loop.i].handle) == Some(s'.forwards[|s.forwards|].sock)))
  {
  }

  lemma LoopHolds(cfg: Config, s: State, a: Act)
    requires LoopNext(cfg, s, a).Some?
    ensures var s' := LoopNext(cfg, s, a).value;
      if a.Got? then s.loop.Blocked? && InHand(s'.loop) == Some((a.from, a.data))
      else InHand(s'.loop) == InHand(s.loop) || InHand(s'.loop) == None
  {
  }

  lemma OthersKeepLoop(cfg: Config, s: State, step: Step)
    requires Inv(cfg, s) && Next(cfg, s, step).Some? && !step.Loop?
    ensures var s' := Next(cfg, s, step).value;
      s'.forwards == s.forwards && (InHand(s'.loop) == InHand(s.loop) || InHand(s'.loop) == None)
  {
    match step {
      case Control(a) => UdpHistory.ControlFrame(cfg, s, a);
      case Resolver(a) => ResolverFrame(cfg, s, a);
      case Receiver(i, a) => ReceiverFrame(s, i, a);
    }
  }

  lemma StepHandlesForwards(cfg: Config, s: State, step: Step)
    requires Inv(cfg, s) && Next(cfg, s, step).Some?
    ensures var s' := Next(cfg, s, step).value;
      Handles(Passed(s.forwards), InHand(s.loop), ArrivedBy(step), Passed(s'.forwards), InHand(s'.loop))
  {
    var s' := Next(cfg, s, step).value;
    if step.Loop? {
      LoopSends(cfg, s, step.act);
      LoopHolds(cfg, s, step.act);
      if s'.forwards != s.forwards {
        var n := |s.forwards|;
        assert s'.forwards == s.forwards + [s'.forwards[n]];
        SentGrows(s.forwards, s'.forwards[n]);
      }
    } else {
      OthersKeepLoop(cfg, s, step);
    }
  }

  lemma ReplyGrows(replies: seq<Reply>, r: Reply, sock: nat)
    ensures RepliedOn(replies + [r], sock) == RepliedOn(replies, sock) + if r.sock == sock then [r.took] else []
  {
    assert (replies + [r])[..|replies|] == replies;
  }

  lemma ReceiverSends(s: State, i: nat, a: Act)
    requires ReceiverNext(s, i, a).Some?
    ensures var s', hand := ReceiverNext(s, i, a).value, HeldReply(s.sessions[i].thread);
      && (s'.replies == s.replies
          || (hand.Some? && s.sessions[i].thread.Replying? && |s'.replies| == |s.replies| + 1
              && s'.replies[..|s.replies|] == s.replies && s'.replies[|s.replies|].took == hand.value
              && s'.replies[|s.replies|].sock == s.sessions[i].thread.x && HeldReply(s'.sessions[i].thread) == None))
      && (if a.Got? then
            s.sessions[i].thread.Blocked? && HeldReply(s'.sessions[i].thread) == Some(a.data) && s'.replies == s.replies
          else HeldReply(s'.sessions[i].thread) == hand || HeldReply(s'.sessions[i].thread) == None)
  {
  }

  lemma ReceiverHandles(s: State, j: nat, a: Act, i: nat)
    requires ReceiverNext(s, j, a).Some? && i < |s.sessions| && Distinct(s)
    requires s.sessions[j].thread.Replying? ==> s.sessions[j].thread.x == s.sessions[j].sock
    ensures var s', sock := ReceiverNext(s, j, a).value, s.sessions[i].sock;
      Handles(RepliedOn(s.replies, sock), HeldReply(s.sessions[i].thread), TakenBy(Step.Receiver(j, a), i),
              RepliedOn(s'.replies, sock), HeldReply(s'.sessions[i].thread))
  {
    var s' := ReceiverNext(s, j, a).value;
    ReceiverFrame(s, j, a);
    ReceiverSends(s, j, a);
    if s'.replies != s.replies {
      var n := |s.replies|;
      assert s'.replies == s.replies + [s'.replies[n]];
      ReplyGrows(s.replies, s'.replies[n], s.sessions[i].sock);
    }
  }

  lemma OthersKeepReceivers(cfg: Config, s: State, step: Step, i: nat)
    requires Inv(cfg, s) && Next(cfg, s, step).Some? && !step.Receiver? && i < |s.sessions|
    ensures var s' := Next(cfg, s, step).value;
      && s'.replies == s.replies && i < |s'.sessions|
      && (|| HeldReply(s'.sessions[i].thread) == HeldReply(s.sessions[i].thread)
          || HeldReply(s'.sessions[i].thread) == None)
  {
    match step {
      case Control(a) => UdpHistory.ControlFrame(cfg, s, a);
      case Resolver(a) => ResolverFrame(cfg, s, a);
      case Loop(a) => LoopKeepsReceiver(cfg, s, a, i);
    }
  }

  lemma LoopKeepsReceiver(cfg: Config, s: State, a: Act, i: nat)
    requires LoopNext(cfg, s, a).Some? && i < |s.sessions|
    ensures var s' := LoopNext(cfg, s, a).value;
      && s'.replies == s.replies && i < |s'.sessions|
      && (|| HeldReply(s'.sessions[i].thread) == HeldReply(s.sessions[i].thread)
          || HeldReply(s'.sessions[i].thread) == None)
  {
    if Simple(s) {
      SimpleFrame(cfg, s, a);
    } else if s.loop.Start? {
      StartFrame(cfg, s, a);
    } else if s.loop.Touch? || s.loop.Send? {
      TouchOrSendFrame(cfg, s, a);
      var z, z' := s.sessions[s.loop.i], LoopNext(cfg, s, a).value.sessions[s.loop.i];
      assert z'.(lastActive := 0, marked := true, up := z.up).thread == z.(lastActive := 0, marked := true).thread;
    } else if s.loop.Select? {
      SelectFrame(cfg, s, a);
    } else if s.loop.Sweep? {
      SweepFrame(cfg, s, a);
    }
  }

  // Runs.

  lemma {:induction false} ForwardsFollow(cfg: Config, run: seq<Step>)
    requires After(cfg, INITIAL, run).Some?
    ensures var s := After(cfg, INITIAL, run).value; Follows(Passed(s.forwards), InHand(s.loop), Arrived(run))
    decreases |run|
  {
    if run != [] {
      var most, last := run[..|run| - 1], run[|run| - 1];
      assert run == most + [last];
      RunSplits(cfg, INITIAL, most, last);
      ForwardsFollow(cfg, most);
      var s := After(cfg, INITIAL, most).value;
      var s' := Next(cfg, s, last).value;
      UdpTheorems.ReachableIsGood(cfg, s);
      StepHandlesForwards(cfg, s, last);
      HandlingFollows(Passed(s.forwards), InHand(s.loop), Arrived(most), ArrivedBy(last),
                      Passed(s'.forwards), InHand(s'.loop));
    }
  }

  lemma {:induction false} NoReplyOn(replies: seq<Reply>, sock: nat)
    requires forall r :: r in replies ==> r.sock != sock
    ensures RepliedOn(replies, sock) == []
  {
    if replies != [] { NoReplyOn(replies[..|replies| - 1], sock); }
  }

  lemma StepHandlesReplies(cfg: Config, s: State, step: Step, i: nat)
    requires UdpTheorems.Good(cfg, s) && Next(cfg, s, step).Some? && i < |s.sessions|
    ensures var s', sock := Next(cfg, s, step).value, s.sessions[i].sock;
      && i < |s'.sessions| && s'.sessions[i].sock == sock
      && Handles(RepliedOn(s.replies, sock), HeldReply(s.sessions[i].thread), TakenBy(step, i),
                 RepliedOn(s'.replies, sock), HeldReply(s'.sessions[i].thread))
  {
    StepContinues(cfg, s, step);
    assert SameRecord(s.sessions[i], Next(cfg, s, step).value.sessions[i]);
    if step.Receiver? {
      assert step.i < |s.sessions|;
      assert SessionOk(s.sessions[step.i], PlaceOf(s, step.i), s.k);
      ReceiverHandles(s, step.i, step.act, i);
    } else {
      OthersKeepReceivers(cfg, s, step, i);
    }
  }

  /** A session just made has no replies yet. */
  lemma NewSessionIsFresh(cfg: Config, s: State, step: Step, i: nat)
    requires UdpTheorems.Good(cfg, s) && Next(cfg, s, step).Some?
    requires |s.sessions| <= i < |Next(cfg, s, step).value.sessions|
    ensures var s' := Next(cfg, s, step).value;
      RepliedOn(s'.replies, s'.sessions[i].sock) == [] && HeldReply(s'.sessions[i].thread) == None
  {
    var s' := Next(cfg, s, step).value;
    StepKeepsInv(cfg, s, step);
    OnlyInsertAdds(cfg, s, step);
    StepContinues(cfg, s, step);
    NoReplyYet(s, s', i);
    NoReplyOn(s'.replies, s'.sessions[i].sock);
  }

  lemma NoReplyYet(s: State, s': State, i: nat)
    requires Continues(s, s') && Distinct(s') && |s.sessions| <= i < |s'.sessions|
    requires forall r :: r in s.replies ==> OwnReply(s, r)
    ensures forall r :: r in s.replies ==> r.sock != s'.sessions[i].sock
  {
    forall r | r in s.replies ensures r.sock != s'.sessions[i].sock {
      assert OwnReply(s, r);
      var j :| 0 <= j < |s.sessions| && s.sessions[j].sock == r.sock && s.sessions[j].client == r.peer;
      assert SameRecord(s.sessions[j], s'.sessions[j]);
    }
  }

  lemma OnlyInsertAdds(cfg: Config, s: State, step: Step)
    requires Inv(cfg, s) && Next(cfg, s, step).Some? && |Next(cfg, s, step).value.sessions| > |s.sessions|
    ensures var s' := Next(cfg, s, step).value;
      && s'.replies == s.replies && |s'.sessions| == |s.sessions| + 1 && s'.sessions[|s.sessions|].thread.NotStarted?
  {
    match step {
      case Control(a) => UdpHistory.ControlFrame(cfg, s, a);
      case Resolver(a) => ResolverFrame(cfg, s, a);
      case Receiver(j, a) => ReceiverFrame(s, j, a);
      case Loop(a) =>
        LoopCacheFrame(cfg, s, a);
    }
  }

  lemma {:induction false} RepliesFollow(cfg: Config, run: seq<Step>, i: nat)
    requires After(cfg, INITIAL, run).Some? && i < |After(cfg, INITIAL, run).value.sessions|
    ensures var s := After(cfg, INITIAL, run).value;
      Follows(RepliedOn(s.replies, s.sessions[i].sock), HeldReply(s.sessions[i].thread), Taken(run, i))
    decreases |run|
  {
    var most, last := run[..|run| - 1], run[|run| - 1];
    assert run == most + [last];
    RunSplits(cfg, INITIAL, most, last);
    var s := After(cfg, INITIAL, most).value;
    var s' := Next(cfg, s, last).value;
    UdpTheorems.ReachableIsGood(cfg, s);
    if i < |s.sessions| {
      var sock := s.sessions[i].sock;
      RepliesFollow(cfg, most, i);
      StepHandlesReplies(cfg, s, last, i);
      HandlingFollows(RepliedOn(s.replies, sock), HeldReply(s.sessions[i].thread), Taken(most, i), TakenBy(last, i),
                      RepliedOn(s'.replies, sock), HeldReply(s'.sessions[i].thread));
    } else {
      NewSessionIsFresh(cfg, s, last, i);
    }
  }

  lemma Weaken<T(!new)>(sent: seq<T>, hand: Option<T>, came: seq<T>)
    requires Follows(sent, hand, came)
    ensures Subsequence(sent, came)
  {
    if hand.Some? {
      assert came == came[..|came| - 1] + [hand.value];
      Skips(sent, came[..|came| - 1], hand.value);
    }
  }

  /** In every run, the datagrams passed to targets, with the clients they are credited to, are a
      subsequence of the datagrams received from clients. */
  lemma ForwardsAreArrivals(cfg: Config, run: seq<Step>)
    requires After(cfg, INITIAL, run).Some?
    ensures Subsequence(Passed(After(cfg, INITIAL, run).value.forwards), Arrived(run))
  {
    ForwardsFollow(cfg, run);
    var s := After(cfg, INITIAL, run).value;
    Weaken(Passed(s.forwards), InHand(s.loop), Arrived(run));
  }

  /** In every run, the replies passed to a session's client are a subsequence of the datagrams that
      session's receiver took. */
  lemma RepliesAreArrivals(cfg: Config, run: seq<Step>, i: nat)
    requires After(cfg, INITIAL, run).Some? && i < |After(cfg, INITIAL, run).value.sessions|
    ensures var s := After(cfg, INITIAL, run).value;
      Subsequence(RepliedOn(s.replies, s.sessions[i].sock), Taken(run, i))
  {
    RepliesFollow(cfg, run, i);
    var s := After(cfg, INITIAL, run).value;
    Weaken(RepliedOn(s.replies, s.sessions[i].sock), HeldReply(s.sessions[i].thread), Taken(run, i));
  }
}
