/**
 What the UDP loop does (src/net/forwarder.cpp:449-511), told by the acts of a run alone.  A book is kept
 of the calls the loop makes and their answers; each entry is checked against the entries before it,
 the running flag and the table.  In every run the book is in order, and what it says was received,
 passed on and noted is what the forwarder holds.
 */
module UdpLoopLaw {
  import opened Endpoints
  import opened Sockets
  import opened UdpMachine
  import opened UdpSafety
  import opened UdpHistory
  import opened UdpOrder
  import opened UdpTheorems
  import UdpEviction

  /** What is due next: `Begin`: to note the time; `Receive`: a datagram; `Idle`: a reading of the clock,
      after a receive call that brought nothing; `Place`: a socket for an unknown client; `Enter`: its
      session; `Stamp`: the time of the datagram; `Send`: the datagram; `Read`: a reading of the clock;
      `Sweep`: the list of sessions to close.  At `Rest` there is no loop thread, or it closes the last
      sessions. */
  datatype Turn = Rest | Begin | Receive | Idle | Place | Enter | Stamp | Send | Read | Sweep

  type Datagram = (string, Payload)

  /** `hand`: the datagram received and not dealt with; `up`: the running flag when the loop last came to
      receive or returned from it; `noted`: the time noted for a sweep; `passed`: the datagrams passed on, with
      the bytes the send call accepted. */
  datatype Book = Book(turn: Turn, hand: Option<Datagram>, up: bool, noted: int, passed: seq<(Datagram, nat)>)

  /** An entry for a reading of the clock by MaybeCleanup. */
  function Checked(b: Book, now: int, running: bool): Book {
    if now - b.noted >= 1000 then b.(turn := Turn.Sweep, noted := now) else b.(turn := Receive, up := running)
  }

  /** The book with one more entry, if that is in order. */
  function Entered(b: Book, a: Act, running: bool, table: map<string, nat>): Option<Book> {
    match a
    case Go => Some(b)
    case Now(now) =>
      if b.turn.Begin? then Some(b.(turn := Receive, noted := now, up := running))
      else if b.turn.Enter? then Some(b.(turn := Stamp))
      else if b.turn.Stamp? then Some(b.(turn := Turn.Send))
      else if b.turn.Read? || (b.turn.Idle? && b.up) then Some(Checked(b, now, running))
      else None
    case Got(from, data) =>
      if b.turn.Receive? && b.up then
        Some(b.(turn := if from in table then Stamp else Place, hand := Some((from, data))))
      else None
    case Nothing(_) => if b.turn.Receive? && b.up then Some(b.(turn := Idle, up := running)) else None
    case Opened(_, _) => if b.turn.Place? then Some(b.(turn := Enter)) else None
    case NoSocket(_) => if b.turn.Place? then Some(b.(turn := Read, hand := None)) else None
    case Sent(n) =>
      if b.turn.Send? && b.hand.Some? then
        Some(b.(turn := Read, hand := None, passed := b.passed + if n > 0 then [(b.hand.value, n)] else []))
      else None
    case Chosen(_, _) =>
      if b.turn.Sweep? then Some(b.(turn := Receive, up := running))
      else if (b.turn.Receive? || b.turn.Idle?) && !running then Some(b.(turn := Rest))
      else None
    case Resolved(_, _) => None
  }

  /** A step of another thread: the thread is started when the running flag goes up. */
  function Woken(b: Book, before: bool, after: bool): Option<Book> {
    if !before && after then (if b.turn.Rest? then Some(b.(turn := Begin)) else None) else Some(b)
  }

  ghost function Noted(cfg: Config, b: Book, s: State, step: Step): Option<Book>
    requires Next(cfg, s, step).Some?
  {
    if step.Loop? then Entered(b, step.act, s.running, s.table)
    else Woken(b, s.running, Next(cfg, s, step).value.running)
  }

  /** The book of a run. */
  ghost function Kept(cfg: Config, run: seq<Step>): Option<Book>
    requires After(cfg, INITIAL, run).Some?
    decreases |run|
  {
    if run == [] then Some(Book(Turn.Rest, None, false, 0, []))
    else
      var most, last := run[..|run| - 1], run[|run| - 1];
      LastStep(cfg, run);
      match Kept(cfg, most)
      case None => None
      case Some(b) => Noted(cfg, b, After(cfg, INITIAL, most).value, last)
  }

  /** A run and its last step. */
  lemma LastStep(cfg: Config, run: seq<Step>)
    requires run != [] && After(cfg, INITIAL, run).Some?
    ensures var s := After(cfg, INITIAL, run[..|run| - 1]);
      && s.Some? && Reachable(cfg, s.value) && Good(cfg, s.value)
      && Next(cfg, s.value, run[|run| - 1]) == After(cfg, INITIAL, run)
  {
    MostAndLast(run);
    RunSplits(cfg, INITIAL, run[..|run| - 1], run[|run| - 1]);
    ReachableIsGood(cfg, After(cfg, INITIAL, run[..|run| - 1]).value);
  }

  function Log(forwards: seq<Forward>): seq<(Datagram, nat)> {
    seq(|forwards|, k requires 0 <= k < |forwards| => ((forwards[k].peer, forwards[k].took), forwards[k].sent))
  }

  /** The turn the book must show at each point of the loop. */
  predicate AtTurn(s: State, b: Book) {
    match s.loop
    case Off => b.turn.Rest?
    case Exited => b.turn.Rest?
    case Init => b.turn.Begin?
    case Top => b.turn.Receive? && (s.running ==> b.up)
    case Load => b.turn.Receive? && b.up
    case Have(_) => b.turn.Receive? && b.up
    case Blocked(_) => b.turn.Receive? && b.up
    case Failed => b.turn.Idle? && (s.running ==> b.up)
    case Find(c, _) => b.turn == if c in s.table then Stamp else Place
    case Snapshot(_, _) => b.turn.Place?
    case Opening(_, _, _) => b.turn.Place?
    case Insert(_, _, _, _, _, _, _) => b.turn.Enter?
    case Start(_, _, _) => b.turn.Stamp?
    case Touch(_, _, _) => b.turn.Stamp?
    case Send(_, _, _) => b.turn.Send?
    case Maybe => b.turn.Read? || (b.turn.Idle? && b.up)
    case Select(force) => if force then b.turn.Receive? || b.turn.Idle? else b.turn.Sweep?
    case Sweep(_, _, force) => if force then b.turn.Rest? else b.turn.Receive? && (s.running ==> b.up)
  }

  predicate Agrees(s: State, b: Book) {
    && AtTurn(s, b) && b.hand == InHand(s.loop) && b.noted == s.lastCleanup && b.passed == Log(s.forwards)
    && (s.running ==> !b.turn.Rest?)
  }

  // Steps.

  /** The loop up to the return of its receive call, seen from the book. */
  lemma ReceivingAgrees(cfg: Config, s: State, b: Book, a: Act)
    requires (Receiving(s.loop) || s.loop.Failed?) && LoopNext(cfg, s, a).Some? && Agrees(s, b)
    ensures Entered(b, a, s.running, s.table).Some?
    ensures Agrees(LoopNext(cfg, s, a).value, Entered(b, a, s.running, s.table).value)
  {
  }

  /** Looking up the client, and the check for a sweep. */
  lemma SimpleAgrees(cfg: Config, s: State, b: Book, a: Act)
    requires (s.loop.Find? || s.loop.Snapshot? || s.loop.Maybe?) && LoopNext(cfg, s, a).Some?
    requires Agrees(s, b) && s.cache != []
    requires Clock.IsTime(s.clock) && 0 <= s.lastCleanup <= s.clock
    ensures Entered(b, a, s.running, s.table).Some?
    ensures Agrees(LoopNext(cfg, s, a).value, Entered(b, a, s.running, s.table).value)
  {
    if s.loop.Maybe? && a.Now? { Clock.NoWrap(a.now, s.lastCleanup); }
  }

  /** A new client's socket and session. */
  lemma MakingAgrees(cfg: Config, s: State, b: Book, a: Act)
    requires (s.loop.Opening? || s.loop.Insert? || s.loop.Start?) && LoopNext(cfg, s, a).Some? && Agrees(s, b)
    requires s.loop.Insert? ==> s.loop.client !in s.table
    ensures Entered(b, a, s.running, s.table).Some?
    ensures Agrees(LoopNext(cfg, s, a).value, Entered(b, a, s.running, s.table).value)
  {
  }

  lemma LogGrows(forwards: seq<Forward>, f: Forward)
    ensures Log(forwards + [f]) == Log(forwards) + [((f.peer, f.took), f.sent)]
  {
  }

  lemma SendingAgrees(cfg: Config, s: State, b: Book, a: Act)
    requires (s.loop.Touch? || s.loop.Send?) && LoopNext(cfg, s, a).Some? && Agrees(s, b)
    ensures Entered(b, a, s.running, s.table).Some?
    ensures Agrees(LoopNext(cfg, s, a).value, Entered(b, a, s.running, s.table).value)
  {
    var s' := LoopNext(cfg, s, a).value;
    if s'.forwards != s.forwards {
      LogGrows(s.forwards, s'.forwards[|s.forwards|]);
    }
  }

  lemma SelectingAgrees(cfg: Config, s: State, b: Book, a: Act)
    requires s.loop.Select? && LoopNext(cfg, s, a).Some? && Agrees(s, b) && (s.loop.force ==> !s.running)
    ensures Entered(b, a, s.running, s.table).Some?
    ensures Agrees(LoopNext(cfg, s, a).value, Entered(b, a, s.running, s.table).value)
  {
    SelectFrame(cfg, s, a);
  }

  lemma SweepMoves(cfg: Config, s: State, a: Act)
    requires s.loop.Sweep? && LoopNext(cfg, s, a).Some?
    ensures var s' := LoopNext(cfg, s, a).value;
      && a.Go? && s'.running == s.running && s'.lastCleanup == s.lastCleanup && s'.forwards == s.forwards
      && (if s.loop.list == [] then s'.loop == (if s.loop.force then Loop.Exited else Loop.Top)
          else s'.loop.Sweep? && s'.loop.force == s.loop.force)
  {
    SweepFrame(cfg, s, a);
  }

  lemma SweepingAgrees(s: State, b: Book, s': State)
    requires s.loop.Sweep? && Agrees(s, b)
    requires s'.running == s.running && s'.lastCleanup == s.lastCleanup && s'.forwards == s.forwards
    requires if s.loop.list == [] then s'.loop == (if s.loop.force then Loop.Exited else Loop.Top)
             else s'.loop.Sweep? && s'.loop.force == s.loop.force
    ensures Agrees(s', b)
  {
  }

  lemma LoopAgrees(cfg: Config, s: State, b: Book, a: Act)
    requires Good(cfg, s) && LoopNext(cfg, s, a).Some? && Agrees(s, b)
    ensures Entered(b, a, s.running, s.table).Some?
    ensures Agrees(LoopNext(cfg, s, a).value, Entered(b, a, s.running, s.table).value)
  {
    if Receiving(s.loop) || s.loop.Failed? {
      ReceivingAgrees(cfg, s, b, a);
    } else if Simple(s) {
      assert s.control.Stopped? ==> s.loop.Off?;
      SimpleAgrees(cfg, s, b, a);
    } else if s.loop.Touch? || s.loop.Send? {
      SendingAgrees(cfg, s, b, a);
    } else if s.loop.Select? {
      SelectingAgrees(cfg, s, b, a);
    } else if s.loop.Sweep? {
      SweepMoves(cfg, s, a);
      SweepingAgrees(s, b, LoopNext(cfg, s, a).value);
    } else {
      MakingAgrees(cfg, s, b, a);
    }
  }

  lemma ControlAgrees(cfg: Config, s: State, b: Book, a: Act)
    requires Good(cfg, s) && ControlNext(cfg, s, a).Some? && Agrees(s, b)
    ensures var s' := ControlNext(cfg, s, a).value; var b' := Woken(b, s.running, s'.running);
      b'.Some? && Agrees(s', b'.value)
  {
    UdpHistory.ControlFrame(cfg, s, a);
    UdpEviction.ControlElsewhere(cfg, s, a);
    StepKeepsInv(cfg, s, Step.Control(a));
    FlagMoves(cfg, s, a);
  }

  lemma FlagMoves(cfg: Config, s: State, a: Act)
    requires ControlNext(cfg, s, a).Some? && ControlOk(s)
    ensures var s' := ControlNext(cfg, s, a).value;
      && (s'.running && !s.running ==> s.loop.Off? && s'.loop.Init?)
      && (s'.loop.Init? && !s.loop.Init? ==> s'.running && !s.running)
      && (s'.loop.Off? && !s.loop.Off? ==> s.loop.Exited? && !s'.running)
  {
    if s.control.SelectAll? { ControlSelectFrame(cfg, s, a); }
  }

  lemma StepAgrees(cfg: Config, s: State, b: Book, step: Step)
    requires Good(cfg, s) && Next(cfg, s, step).Some? && Agrees(s, b)
    ensures Noted(cfg, b, s, step).Some? && Agrees(Next(cfg, s, step).value, Noted(cfg, b, s, step).value)
  {
    match step {
      case Loop(a) => LoopAgrees(cfg, s, b, a);
      case Control(a) => ControlAgrees(cfg, s, b, a);
      case Receiver(i, a) => ReceiverFrame(s, i, a);
      case Resolver(a) => ResolverFrame(cfg, s, a);
    }
  }

  /** The law of the loop: in every run its acts are in order, and what the book says is in hand, noted
      and passed on is what the forwarder holds. */
  lemma {:induction false} BookIsKept(cfg: Config, run: seq<Step>)
    requires After(cfg, INITIAL, run).Some?
    ensures Kept(cfg, run).Some? && Agrees(After(cfg, INITIAL, run).value, Kept(cfg, run).value)
    decreases |run|
  {
    if run != [] {
      var most, last := run[..|run| - 1], run[|run| - 1];
      LastStep(cfg, run);
      BookIsKept(cfg, most);
      StepAgrees(cfg, After(cfg, INITIAL, most).value, Kept(cfg, most).value, last);
    }
  }

  // Every datagram is dealt with.

  /** How many acts of the loop in a run are of a kind. */
  function Many(run: seq<Step>, kind: Act -> bool): nat {
    if run == [] then 0
    else
      var last := run[|run| - 1];
      Many(run[..|run| - 1], kind) + if last.Loop? && kind(last.act) then 1 else 0
  }

  predicate IsReceived(a: Act) { a.Got? }

  predicate IsSent(a: Act) { a.Sent? }

  predicate IsPassed(a: Act) { a.Sent? && a.n > 0 }

  predicate IsRefused(a: Act) { a.NoSocket? }

  predicate Balanced(run: seq<Step>, s: State) {
    && Many(run, IsReceived) == Many(run, IsSent) + Many(run, IsRefused) + (if InHand(s.loop).Some? then 1 else 0)
    && Many(run, IsPassed) == |s.forwards|
  }

  lemma EntryBalances(s: State, b: Book, a: Act, s': State)
    requires Agrees(s, b) && Entered(b, a, s.running, s.table).Some?
    requires Agrees(s', Entered(b, a, s.running, s.table).value)
    ensures var hand, hand' := if InHand(s.loop).Some? then 1 else 0, if InHand(s'.loop).Some? then 1 else 0;
      && (if IsReceived(a) then 1 else 0) + hand == (if IsSent(a) || IsRefused(a) then 1 else 0) + hand'
      && |s'.forwards| == |s.forwards| + if IsPassed(a) then 1 else 0
  {
    var b' := Entered(b, a, s.running, s.table).value;
    assert |Log(s'.forwards)| == |b'.passed|;
  }

  /** No datagram is lost: each one received has been handed to the send call once, or no endpoint
      yielded a socket for its client, or it is the one in hand.  What was passed on is what send calls
      accepted. */
  lemma {:induction false} EveryDatagramIsSent(cfg: Config, run: seq<Step>)
    requires After(cfg, INITIAL, run).Some?
    ensures Balanced(run, After(cfg, INITIAL, run).value)
    decreases |run|
  {
    if run != [] {
      var most, last := run[..|run| - 1], run[|run| - 1];
      LastStep(cfg, run);
      EveryDatagramIsSent(cfg, most);
      BookIsKept(cfg, most);
      var s, s', b := After(cfg, INITIAL, most).value, After(cfg, INITIAL, run).value, Kept(cfg, most).value;
      StepAgrees(cfg, s, b, last);
      if last.Loop? {
        EntryBalances(s, b, last.act, s');
      } else {
        OtherBalances(s, b, s');
      }
    }
  }

  lemma OtherBalances(s: State, b: Book, s': State)
    requires Agrees(s, b) && Woken(b, s.running, s'.running).Some? && Agrees(s', Woken(b, s.running, s'.running).value)
    ensures InHand(s'.loop) == InHand(s.loop) && |s'.forwards| == |s.forwards|
  {
    assert |Log(s'.forwards)| == |Log(s.forwards)|;
  }

  /** `snap` was cached, and no endpoint of it fits and yields a socket. */
  ghost predicate RefusedAll(cfg: Config, s: State, snap: seq<Endpoint>, made: seq<bool>) {
    && snap != [] && WasCached(cfg, s, snap) && |made| == |snap|
    && forall k :: 0 <= k < |snap| ==> !made[k] || snap[k].addressLength > 128
  }

  lemma RefusalFrame(cfg: Config, s: State, made: seq<bool>)
    requires LoopNext(cfg, s, NoSocket(made)).Some?
    ensures s.loop.Opening? && |made| == |s.loop.snap|
    ensures forall k :: 0 <= k < |made| ==> !made[k] || s.loop.snap[k].addressLength > 128
  {
    assert Pick(s.loop.snap, made).None?;
  }

  /** A datagram is refused only if its client has no session and no endpoint of the cached list fits and
      yields a socket. */
  lemma OnlyStrangersAreRefused(cfg: Config, s: State, made: seq<bool>)
    requires Reachable(cfg, s) && Next(cfg, s, Step.Loop(NoSocket(made))).Some?
    ensures InHand(s.loop).Some? && InHand(s.loop).value.0 !in s.table
    ensures exists snap :: RefusedAll(cfg, s, snap, made)
  {
    ReachableIsGood(cfg, s);
    RefusalFrame(cfg, s, made);
    assert RefusedAll(cfg, s, s.loop.snap, made);
  }
}
