/**
 What the accept thread does (src/net/forwarder.cpp:716-768), told by its acts in a run: for every client
 accepted it tries the endpoints of the current target list one after the other, and rejects the
 client only when all have failed.
 */
module TcpAcceptLaw {
  import opened Dialling
  import opened Endpoints
  import opened Ranks
  import opened Sockets
  import opened TcpCache
  import opened TcpMachine
  import opened TcpSafety
  import opened TcpTheorems

  /** What is due next: `Look`: at the running flag; `Collect`: the finished sessions, for the last time or
      not; `Wait`: a client; `Again`: the running flag, since no client came; `Copy`: the target list;
      `Dial`: a socket for the next endpoint; `Asked`: its connection; `Enter`: the session, and `Begin`:
      its worker; `Refuse`: the end of a client for whom all endpoints failed.  At `Rest` there is no accept
      thread, or it joins the last sessions. */
  datatype Turn =
    Rest | Look | Collect(last: bool) | Wait | Again | Copy | Dial | Asked | Enter | Begin | Refuse

  /** `client`, `peer`: the client accepted last; `list`, `answers`: what was tried for it; `upstream`: the
      socket last made for it.  `accepted`, `made` and `refused` count clients. */
  datatype Book = Book(turn: Turn, client: int, peer: string, list: seq<Endpoint>, answers: seq<Answer>, upstream: int,
                       accepted: nat, made: nat, refused: nat)

  /** The book with one more entry, if that is in order. */
  function Entered(b: Book, a: Act, running: bool, cache: seq<Endpoint>): Option<Book> {
    match b.turn
    case Rest => if a.Go? then Some(b) else None
    case Look => if a.Go? then Some(b.(turn := Turn.Collect(!running))) else None
    case Collect(last) => if a.Chosen? then Some(b.(turn := if last then Turn.Rest else Wait)) else None
    case Wait =>
      if a.Go? then Some(b)
      else if a.Accepted? then Some(b.(turn := Copy, client := a.h, peer := a.peer, accepted := b.accepted + 1))
      else if a.Nothing? then Some(b.(turn := Again))
      else None
    case Again => if a.Go? then Some(b.(turn := if running then Look else Turn.Collect(true))) else None
    case Copy => if a.Go? && cache != [] then Some(b.(turn := Dial, list := cache, answers := [])) else None
    case Dial =>
      if |b.answers| == |b.list| then (if a.Go? then Some(b.(turn := Refuse)) else None)
      else if a.Nothing? then Some(b.(answers := b.answers + [NoSocket]))
      else if a.Opened? then Some(b.(turn := Asked, upstream := a.h))
      else None
    case Asked =>
      if a.Nothing? then Some(b.(turn := Dial, answers := b.answers + [Refused]))
      else if a.Go? then Some(b.(turn := Enter, answers := b.answers + [Granted]))
      else None
    case Enter => if a.Go? then Some(b.(turn := Begin, made := b.made + 1)) else None
    case Begin => if a.Go? then Some(b.(turn := Look)) else None
    case Refuse => if a.Go? then Some(b.(turn := Look, refused := b.refused + 1)) else None
  }

  /** A step of another thread: the thread is started when the running flag goes up. */
  function Woken(b: Book, before: bool, after: bool): Option<Book> {
    if !before && after then (if b.turn.Rest? then Some(b.(turn := Look)) else None) else Some(b)
  }

  ghost function Noted(cfg: Config, b: Book, s: State, step: Step): Option<Book>
    requires Next(cfg, s, step).Some?
  {
    if step.Accept? then Entered(b, step.act, s.running, s.cache)
    else Woken(b, s.running, Next(cfg, s, step).value.running)
  }

  /** The book of a run. */
  ghost function Kept(cfg: Config, run: seq<Step>): Option<Book>
    requires After(cfg, INITIAL, run).Some?
    decreases |run|
  {
    if run == [] then Some(Book(Turn.Rest, INVALID, "", [], [], INVALID, 0, 0, 0))
    else
      var most, last := run[..|run| - 1], run[|run| - 1];
      LastStep(cfg, run);
      match Kept(cfg, most)
      case None => None
      case Some(b) => Noted(cfg, b, After(cfg, INITIAL, most).value, last)
  }

  /** A run and its last step. */
  lemma LastStep(cfg: Config, run: seq<Step>)
    requires run != [] && After(cfg, INITIAL, run).Some?
    ensures var s := After(cfg, INITIAL, run[..|run| - 1]);
      && s.Some? && Reachable(cfg, s.value) && Inv(s.value) && Cached(cfg, s.value)
      && Next(cfg, s.value, run[|run| - 1]) == After(cfg, INITIAL, run)
  {
    assert run == run[..|run| - 1] + [run[|run| - 1]];
    MachineSplits(cfg, INITIAL, run[..|run| - 1], run[|run| - 1]);
    ReachableIsCached(cfg, After(cfg, INITIAL, run[..|run| - 1]).value);
  }

  /** The turn the book must show at each point of the accept thread. */
  predicate AtTurn(a: Accept, b: Book) {
    match a
    case Off => b.turn.Rest?
    case Exited => b.turn.Rest?
    case Top => b.turn.Look?
    case Reap(final) => b.turn == Turn.Collect(final)
    case Reaping(_, final) => b.turn == if final then Turn.Rest else Wait
    case Load => b.turn.Wait?
    case Have(_) => b.turn.Wait?
    case Accepting(_) => b.turn.Wait?
    case Failed => b.turn.Again?
    case Choose(_, _) => b.turn.Copy?
    case Refresh(_, _) => false
    case Connect(_, _, snap, i) => b.turn.Dial? && b.list == snap && |b.answers| == i
    case Trial(_, _, snap, i, _) => b.turn.Asked? && b.list == snap && |b.answers| == i < |snap|
    case Drop(_) => b.turn.Refuse?
    case Insert(_, _, _) => b.turn.Enter?
    case Start(_) => b.turn.Begin?
  }

  /** How far the search for the client in hand has come. */
  predicate Search(b: Book) {
    && (b.turn.Dial? || b.turn.Asked? ==> b.list != [] && Vain(|b.list|, b.answers))
    && (b.turn.Refuse? ==> b.list != [] && Exhausted(|b.list|, b.answers))
    && (b.turn.Enter? || b.turn.Begin? ==> Won(|b.list|, b.answers))
  }

  predicate Labelled(a: Accept) {
    a.Choose? || a.Refresh? || a.Connect? || a.Trial? || a.Insert?
  }

  /** The sockets in hand are those of the book. */
  predicate Holds(s: State, b: Book) {
    && (HasClient(s.accept) ==> s.accept.c.fd == b.client)
    && (Labelled(s.accept) ==> s.accept.peer == b.peer)
    && (s.accept.Trial? || s.accept.Insert? ==> s.accept.u.fd == b.upstream)
    && (s.accept.Start? ==>
          && s.accept.n + 1 == |s.sessions|
          && s.sessions[s.accept.n].client.fd == b.client && s.sessions[s.accept.n].upstream.fd == b.upstream
          && s.sessions[s.accept.n].peer == b.peer)
  }

  predicate Agrees(s: State, b: Book) {
    && AtTurn(s.accept, b) && Search(b) && Holds(s, b) && (s.running ==> !b.turn.Rest? && b.turn != Turn.Collect(true))
    && b.made == |s.sessions| && b.accepted == b.made + b.refused + if HasClient(s.accept) then 1 else 0
  }

  // Steps.

  lemma WaitingAgrees(cfg: Config, s: State, b: Book, a: Act)
    requires Simple(s, a) && !HasClient(s.accept) && AcceptNext(cfg, s, a).Some? && Agrees(s, b)
    ensures Entered(b, a, s.running, s.cache).Some?
    ensures Agrees(AcceptNext(cfg, s, a).value, Entered(b, a, s.running, s.cache).value)
  {
  }

  lemma DiallingAgrees(cfg: Config, s: State, b: Book, a: Act)
    requires Simple(s, a) && HasClient(s.accept) && AcceptNext(cfg, s, a).Some? && Agrees(s, b) && s.cache != []
    ensures Entered(b, a, s.running, s.cache).Some?
    ensures Agrees(AcceptNext(cfg, s, a).value, Entered(b, a, s.running, s.cache).value)
  {
  }

  lemma SocketAgrees(cfg: Config, s: State, b: Book, a: Act)
    requires !Simple(s, a) && !s.accept.Reap? && !s.accept.Reaping? && !s.accept.Insert? && !s.accept.Start?
    requires AcceptNext(cfg, s, a).Some? && Agrees(s, b)
    ensures Entered(b, a, s.running, s.cache).Some?
    ensures Agrees(AcceptNext(cfg, s, a).value, Entered(b, a, s.running, s.cache).value)
  {
  }

  lemma SessionAgrees(cfg: Config, s: State, b: Book, a: Act)
    requires (s.accept.Insert? || s.accept.Start?) && AcceptNext(cfg, s, a).Some? && Agrees(s, b)
    ensures Entered(b, a, s.running, s.cache).Some?
    ensures Agrees(AcceptNext(cfg, s, a).value, Entered(b, a, s.running, s.cache).value)
  {
  }

  lemma ReapAgrees(s: State, b: Book, a: Act)
    requires (s.accept.Reap? || s.accept.Reaping?) && ReapNext(s, a).Some? && Agrees(s, b)
    ensures Entered(b, a, s.running, s.cache).Some?
    ensures Agrees(ReapNext(s, a).value, Entered(b, a, s.running, s.cache).value)
  {
    ReapFrame(s, a);
  }

  lemma AcceptAgrees(cfg: Config, s: State, b: Book, a: Act)
    requires Inv(s) && Cached(cfg, s) && Next(cfg, s, Step.Accept(a)).Some? && Agrees(s, b)
    ensures Entered(b, a, s.running, s.cache).Some?
    ensures Agrees(Next(cfg, s, Step.Accept(a)).value, Entered(b, a, s.running, s.cache).value)
  {
    AcceptNeedsStart(cfg, s, a);
    if s.accept.Reap? || s.accept.Reaping? {
      ReapAgrees(s, b, a);
    } else if Simple(s, a) && HasClient(s.accept) {
      DiallingAgrees(cfg, s, b, a);
    } else if Simple(s, a) {
      WaitingAgrees(cfg, s, b, a);
    } else if s.accept.Insert? || s.accept.Start? {
      SessionAgrees(cfg, s, b, a);
    } else {
      SocketAgrees(cfg, s, b, a);
    }
  }

  /** The flag goes up when the accept thread is started, and is down when it is joined. */
  lemma ControlFrame(cfg: Config, s: State, a: Act)
    requires Inv(s) && Next(cfg, s, Step.Control(a)).Some?
    ensures var s' := Next(cfg, s, Step.Control(a)).value;
      && (if s'.running && !s.running then s.accept.Off? && s'.accept.Top?
          else s'.accept == s.accept || (s.accept.Exited? && s'.accept.Off?))
      && |s'.sessions| == |s.sessions| && (s.accept.Start? ==> s'.sessions == s.sessions)
  {
    if Listening(s.control) {
      ListenMoves(cfg, s, a);
    } else {
      StopFrame(s, a);
      StopMoves(s, a);
    }
  }

  lemma ListenMoves(cfg: Config, s: State, a: Act)
    requires ControlOk(s) && ListenNext(cfg, s, a).Some?
    ensures var s' := ListenNext(cfg, s, a).value;
      && (if s'.running && !s.running then s.accept.Off? && s'.accept.Top? else s'.accept == s.accept)
      && s'.sessions == s.sessions
  {
  }

  lemma StopMoves(s: State, a: Act)
    requires ControlOk(s) && StopNext(s, a).Some?
    ensures var s' := StopNext(s, a).value;
      && !s'.running && (s'.accept == s.accept || (s.accept.Exited? && s'.accept.Off?))
      && |s'.sessions| == |s.sessions| && (s.accept.Start? ==> s'.sessions == s.sessions)
  {
  }

  lemma ControlAgrees(cfg: Config, s: State, b: Book, a: Act)
    requires Inv(s) && Next(cfg, s, Step.Control(a)).Some? && Agrees(s, b)
    ensures var s' := Next(cfg, s, Step.Control(a)).value; var b' := Woken(b, s.running, s'.running);
      b'.Some? && Agrees(s', b'.value)
  {
    ControlFrame(cfg, s, a);
  }

  lemma WorkerAgrees(s: State, b: Book, n: nat)
    requires WorkerNext(s, n).Some? && Agrees(s, b)
    ensures Agrees(WorkerNext(s, n).value, b) && WorkerNext(s, n).value.running == s.running
  {
    WorkerSteps(s, n);
  }

  lemma StepAgrees(cfg: Config, s: State, b: Book, step: Step)
    requires Inv(s) && Cached(cfg, s) && Next(cfg, s, step).Some? && Agrees(s, b)
    ensures Noted(cfg, b, s, step).Some? && Agrees(Next(cfg, s, step).value, Noted(cfg, b, s, step).value)
  {
    match step {
      case Accept(a) => AcceptAgrees(cfg, s, b, a);
      case Control(a) => ControlAgrees(cfg, s, b, a);
      case Worker(n) => WorkerAgrees(s, b, n);
      case Resolver(a) => ResolverFrame(cfg, s, a);
    }
  }

  /** The law of the accept thread: in every run its acts are in order, and the book says what it holds. */
  lemma {:induction false} BookIsKept(cfg: Config, run: seq<Step>)
    requires After(cfg, INITIAL, run).Some?
    ensures Kept(cfg, run).Some? && Agrees(After(cfg, INITIAL, run).value, Kept(cfg, run).value)
    decreases |run|
  {
    if run != [] {
      var most, last := run[..|run| - 1], run[|run| - 1];
      LastStep(cfg, run);
      BookIsKept(cfg, most);
      StepAgrees(cfg, After(cfg, INITIAL, most).value, Kept(cfg, most).value, last);
    }
  }

  /** Over every run: a client is about to be rejected only if, since the target list was copied for it, every
      endpoint of that list has been tried once, in order, and failed; a session about to be inserted or
      started joins the client accepted last to the socket of the first endpoint that was granted. */
  lemma EveryEndpointIsTried(cfg: Config, run: seq<Step>)
    requires After(cfg, INITIAL, run).Some?
    ensures Kept(cfg, run).Some?
    ensures var s, b := After(cfg, INITIAL, run).value, Kept(cfg, run).value;
      && (s.accept.Drop? ==> b.list != [] && Exhausted(|b.list|, b.answers) && s.accept.c.fd == b.client)
      && (s.accept.Insert? ==>
            && Won(|b.list|, b.answers)
            && s.accept.c.fd == b.client && s.accept.peer == b.peer && s.accept.u.fd == b.upstream)
      && (s.accept.Start? ==>
            && Won(|b.list|, b.answers) && s.accept.n < |s.sessions|
            && var z := s.sessions[s.accept.n];
               z.client.fd == b.client && z.peer == b.peer && z.upstream.fd == b.upstream)
  {
    BookIsKept(cfg, run);
  }

  /** Every client accepted got a session, or was rejected, or is the one in hand. */
  lemma ClientsAreAccounted(cfg: Config, run: seq<Step>)
    requires After(cfg, INITIAL, run).Some?
    ensures Kept(cfg, run).Some?
    ensures var s, b := After(cfg, INITIAL, run).value, Kept(cfg, run).value;
      b.accepted == |s.sessions| + b.refused + if HasClient(s.accept) then 1 else 0
  {
    BookIsKept(cfg, run);
  }

  lemma OneAct(cfg: Config, s: State, a: Act, rest: seq<Step>)
    requires Next(cfg, s, Step.Accept(a)).Some?
    ensures After(cfg, s, [Step.Accept(a)] + rest) == After(cfg, Next(cfg, s, Step.Accept(a)).value, rest)
  {
    assert ([Step.Accept(a)] + rest)[1..] == rest;
  }

  /** A socket is made for the next endpoint, and refused. */
  lemma RefusedTrial(cfg: Config, s: State, h: int) returns (run: seq<Step>, t: State)
    requires s.accept.Connect? && s.accept.i < |s.accept.snap| && Free(s.k, h) && Valid(s.k)
    ensures run == [Step.Accept(Opened(h)), Step.Accept(Nothing)]
    ensures forall rest :: After(cfg, s, run + rest) == After(cfg, t, rest)
    ensures t.accept == Connect(s.accept.c, s.accept.peer, s.accept.snap, s.accept.i + 1)
    ensures t.k.fds == s.k.fds && Valid(t.k)
  {
    run := [Step.Accept(Opened(h)), Step.Accept(Nothing)];
    var mid := Next(cfg, s, Step.Accept(Opened(h))).value;
    t := Next(cfg, mid, Step.Accept(Nothing)).value;
    OpenKeepsValid(s.k, h);
    CloseKeepsValid(mid.k, h);
    forall rest ensures After(cfg, s, run + rest) == After(cfg, t, rest) {
      OneAct(cfg, s, Opened(h), [Step.Accept(Nothing)] + rest);
      OneAct(cfg, mid, Nothing, rest);
      assert run + rest == [Step.Accept(Opened(h))] + ([Step.Accept(Nothing)] + rest);
    }
  }

  /** And the other way round: whatever a search through the target list can come to, as
      `OsCalls.SearchAnswers` describes it, the thread can come to by its own acts alone. */
  lemma {:induction false} AnswersAreTaken(cfg: Config, s: State, answers: seq<Answer>, h: int) returns (run: seq<Step>)
    requires s.accept.Connect? && s.accept.i <= |s.accept.snap| && Free(s.k, h) && Valid(s.k)
    requires Exhausted(|s.accept.snap| - s.accept.i, answers) || Won(|s.accept.snap| - s.accept.i, answers)
    ensures forall k :: 0 <= k < |run| ==> run[k].Accept?
    ensures After(cfg, s, run).Some?
    ensures var l, t := s.accept, After(cfg, s, run).value;
      if Exhausted(|l.snap| - l.i, answers) then
        t.accept == Connect(l.c, l.peer, l.snap, |l.snap|) && t.k.fds == s.k.fds
      else
        && t.accept.Insert? && t.accept.c == l.c && t.accept.peer == l.peer && t.accept.u.fd == h
        && t.k.fds == s.k.fds[h := t.accept.u.x]
    decreases |answers|
  {
    if answers == [] {
      run := [];
    } else if answers[0].Granted? {
      var mid := Next(cfg, s, Step.Accept(Opened(h))).value;
      OneAct(cfg, s, Opened(h), [Step.Accept(Go)]);
      OneAct(cfg, mid, Go, []);
      run := [Step.Accept(Opened(h))] + [Step.Accept(Go)];
      assert [Step.Accept(Go)] + [] == [Step.Accept(Go)];
    } else if answers[0].NoSocket? {
      var t := Next(cfg, s, Step.Accept(Nothing)).value;
      var rest := AnswersAreTaken(cfg, t, answers[1..], h);
      OneAct(cfg, s, Nothing, rest);
      run := [Step.Accept(Nothing)] + rest;
    } else {
      var first, t := RefusedTrial(cfg, s, h);
      var rest := AnswersAreTaken(cfg, t, answers[1..], h);
      run := first + rest;
    }
  }

  // The accept thread serves.

  predicate Final(a: Accept) {
    (a.Reap? || a.Reaping?) && a.final
  }

  /** While the forwarder is up the thread is at work, and the number it reads is that of the listener. */
  predicate Tuned(s: State) {
    s.running ==>
      && !s.accept.Off? && !s.accept.Exited? && !Final(s.accept)
      && (s.accept.Have? ==> s.accept.h == s.listen)
      && (s.accept.Accepting? ==> s.accept.on == Some(s.listenSock))
  }

  lemma AcceptStaysTuned(cfg: Config, s: State, a: Act)
    requires Tuned(s) && Next(cfg, s, Step.Accept(a)).Some? && (s.running ==> Names(s.k, s.listen, s.listenSock))
    ensures Tuned(Next(cfg, s, Step.Accept(a)).value)
  {
    if s.accept.Reap? || s.accept.Reaping? { ReapFrame(s, a); }
  }

  lemma ControlStaysTuned(cfg: Config, s: State, a: Act)
    requires Tuned(s) && ControlOk(s) && Next(cfg, s, Step.Control(a)).Some?
    ensures Tuned(Next(cfg, s, Step.Control(a)).value)
  {
    if !Listening(s.control) { StopMoves(s, a); }
  }

  lemma StepStaysTuned(cfg: Config, s: State, step: Step)
    requires Inv(s) && Tuned(s) && Next(cfg, s, step).Some?
    ensures Tuned(Next(cfg, s, step).value)
  {
    match step {
      case Accept(a) => AcceptStaysTuned(cfg, s, a);
      case Control(a) => ControlStaysTuned(cfg, s, a);
      case Resolver(a) => ResolverFrame(cfg, s, a);
      case Worker(n) => WorkerSteps(s, n);
    }
  }

  lemma {:induction false} RunStaysTuned(cfg: Config, s: State, run: seq<Step>)
    requires Inv(s) && Tuned(s) && After(cfg, s, run).Some?
    ensures Tuned(After(cfg, s, run).value)
    decreases run
  {
    if run != [] {
      StepKeepsInv(cfg, s, run[0]);
      StepStaysTuned(cfg, s, run[0]);
      RunStaysTuned(cfg, Next(cfg, s, run[0]).value, run[1..]);
    }
  }

  lemma AcceptIsTuned(cfg: Config, s: State)
    requires Reachable(cfg, s)
    ensures Tuned(s)
  {
    var run :| After(cfg, INITIAL, run) == Some(s);
    RunStaysTuned(cfg, INITIAL, run);
  }

  /** An answer the environment may give at the point where the accept thread is. */
  ghost predicate MayAnswer(s: State, a: Act) {
    match s.accept
    case Off => false
    case Exited => false
    case Reap(_) => a.Chosen? && IsSelection(s, true, a.order)
    case Accepting(_) => a.Nothing? || (a.Accepted? && Free(s.k, a.h))
    case Connect(_, _, snap, i) => if i == |snap| then a.Go? else a.Nothing? || (a.Opened? && Free(s.k, a.h))
    case Trial(_, _, _, _, _) => a.Nothing? || a.Go?
    case _ => a.Go?
  }

  /** The thread waits on the listening socket, and takes every answer: any client, any failure, any socket
      and any outcome of a connection. */
  lemma EveryAnswerIsTaken(cfg: Config, s: State, a: Act)
    requires Reachable(cfg, s) && s.running && s.nextId + 1 < U64 && MayAnswer(s, a)
    ensures Next(cfg, s, Step.Accept(a)).Some?
    ensures s.accept.Accepting? ==> s.accept.on == Some(s.listenSock) && IsOpen(s.k, s.listenSock)
  {
    ReachableIsCached(cfg, s);
    AcceptIsTuned(cfg, s);
    if s.accept.Reaping? && s.accept.list != [] { TcpStop.HeadIsFinished(s); }
  }

  /** A return of accept. */
  predicate IsReturn(s: State, step: Step) {
    s.accept.Accepting? && step.Accept?
  }

  /** Steps of the thread until it waits for a client again, for target lists of at most `m` endpoints. */
  function Distance(a: Accept, sessions: nat, m: nat): nat {
    match a
    case Off => 0
    case Exited => 0
    case Accepting(_) => 0
    case Have(_) => 1
    case Load => 2
    case Reaping(list, _) => 3 + |list|
    case Reap(_) => 4 + sessions
    case Top => 5 + sessions
    case Failed => 6 + sessions
    case Drop(_) => 6 + sessions
    case Start(_) => 6 + sessions
    case Insert(_, _, _) => 8 + sessions
    case Connect(_, _, snap, i) => 9 + sessions + if i <= |snap| then 2 * (|snap| - i) else 0
    case Trial(_, _, snap, i, _) => 8 + sessions + if i <= |snap| then 2 * (|snap| - i) else 0
    case Choose(_, _) => 10 + sessions + 2 * m
    case Refresh(_, _) => 0
  }

  /** The forwarder is up at every moment of the run, target lists have at most `m` endpoints, and accept does
      not return. */
  ghost predicate Waits(cfg: Config, s: State, run: seq<Step>, m: nat)
    decreases |run|
  {
    && s.running && |s.cache| <= m
    && (run != [] ==>
          && !IsReturn(s, run[0])
          && Next(cfg, s, run[0]).Some? && Waits(cfg, Next(cfg, s, run[0]).value, run[1..], m))
  }

  lemma ReapComesBack(s: State, a: Act)
    requires (s.accept.Reap? || s.accept.Reaping?) && ReapNext(s, a).Some? && !s.accept.final
    requires s.accept.Reaping? && s.accept.list != [] ==>
               s.accept.list[0] < |s.sessions| && s.sessions[s.accept.list[0]].phase.Finished?
    ensures var s' := ReapNext(s, a).value; forall m: nat ::
      Distance(s'.accept, |s'.sessions|, m) < Distance(s.accept, |s.sessions|, m)
  {
    ReapFrame(s, a);
    if s.accept.Reap? { FewIndices(a.order, |s.sessions|); }
  }

  lemma ElsewhereComesBack(cfg: Config, s: State, a: Act, m: nat)
    requires s.running && !s.accept.Reap? && !s.accept.Reaping? && !s.accept.Accepting? && !s.accept.Refresh?
    requires s.cache != [] && |s.cache| <= m && AcceptNext(cfg, s, a).Some?
    requires s.accept.Connect? || s.accept.Trial? ==> s.accept.i <= |s.accept.snap|
    requires s.accept.Trial? ==> s.accept.i < |s.accept.snap|
    ensures var s' := AcceptNext(cfg, s, a).value;
      Distance(s'.accept, |s'.sessions|, m) < Distance(s.accept, |s.sessions|, m)
  {
  }

  lemma StepComesBack(cfg: Config, s: State, a: Act, m: nat)
    requires Reachable(cfg, s) && s.running && |s.cache| <= m && !IsReturn(s, Step.Accept(a))
    requires Next(cfg, s, Step.Accept(a)).Some?
    ensures var s' := Next(cfg, s, Step.Accept(a)).value;
      Distance(s'.accept, |s'.sessions|, m) < Distance(s.accept, |s.sessions|, m)
  {
    ReachableIsCached(cfg, s);
    AcceptIsTuned(cfg, s);
    if s.accept.Reap? || s.accept.Reaping? {
      if s.accept.Reaping? && s.accept.list != [] { TcpStop.HeadIsFinished(s); }
      ReapComesBack(s, a);
    } else {
      ElsewhereComesBack(cfg, s, a, m);
    }
  }

  lemma OthersKeepDistance(cfg: Config, s: State, step: Step)
    requires Inv(s) && Next(cfg, s, step).Some? && !step.Accept? && s.running && Next(cfg, s, step).value.running
    ensures var s' := Next(cfg, s, step).value; s'.accept == s.accept && |s'.sessions| == |s.sessions|
  {
    match step {
      case Control(a) =>
      case Resolver(a) => ResolverFrame(cfg, s, a);
      case Worker(n) => WorkerSteps(s, n);
    }
  }

  function AcceptSteps(run: seq<Step>): nat {
    if run == [] then 0 else (if run[0].Accept? then 1 else 0) + AcceptSteps(run[1..])
  }

  /** While the forwarder is up, the accept thread has only boundedly many steps to take before accept returns
      again, whatever the others do in between, and always one that waits for no client and no connection. */
  lemma {:induction false} AcceptComesBack(cfg: Config, s: State, run: seq<Step>, m: nat) returns (step: Step)
    requires Reachable(cfg, s) && After(cfg, s, run).Some? && Waits(cfg, s, run, m)
    ensures var t := After(cfg, s, run).value;
      && AcceptSteps(run) + Distance(t.accept, |t.sessions|, m) <= Distance(s.accept, |s.sessions|, m)
      && (t.nextId + 1 < U64 ==> Next(cfg, t, step).Some? && TcpStop.Prompt(t, step) && step.Accept?)
    decreases run
  {
    ReachableIsCached(cfg, s);
    if run != [] {
      var s' := Next(cfg, s, run[0]).value;
      MachineGoesOn(cfg, s, run[0]);
      if run[0].Accept? { StepComesBack(cfg, s, run[0].act, m); } else { OthersKeepDistance(cfg, s, run[0]); }
      step := AcceptComesBack(cfg, s', run[1..], m);
    } else {
      AcceptIsTuned(cfg, s);
      if s.nextId + 1 < U64 { step := TcpStop.AcceptCanStep(cfg, s); } else { step := Step.Accept(Go); }
    }
  }
}
