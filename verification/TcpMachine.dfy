/**
 A forwarder in TCP mode as a step system: the thread that calls Start and Stop, the accept
 thread, the resolver thread and the sessions' workers.  A session is seen here through the phases
 of its worker; what happens inside a phase is the subject of RelaySession.
 */
module TcpMachine {
  import opened Sockets
  import opened Endpoints
  import opened TargetCache
  import opened Refresher

  datatype Config = Config(preference: Preference)

  /** A socket handed to a session. */
  datatype End = End(fd: int, x: nat)

  /** `Fresh`: made but not started; `Relaying`: both sockets open; then the worker closes the
      client's socket, the upstream socket, and reports that it is finished. */
  datatype Phase = Fresh | Relaying | HalfClosed | Closed | Finished | Joined

  /** `stopping` is set by Stop; `shut` says that Stop shut both sockets down while they were open. */
  datatype Session = Session(client: End, upstream: End, peer: string, phase: Phase, stopping: bool, shut: bool)

  datatype Accept =
    | Off | Top | Reap(final: bool) | Reaping(list: seq<nat>, final: bool)
    | Load | Have(h: int) | Accepting(on: Option<nat>) | Failed
    | Choose(c: End, peer: string)
    | Refresh(c: End, peer: string)
    | Connect(c: End, peer: string, snap: seq<Endpoint>, i: nat)
    | Trial(c: End, peer: string, snap: seq<Endpoint>, i: nat, u: End)
    | Drop(c: End)
    | Insert(c: End, peer: string, u: End)
    | Start(n: nat)
    | Exited

  datatype Control =
    | Stopped | Trying(left: nat) | Candidate(h: int, x: nat, left: nat) | Up
    | ShutListen | CloseListen | ForgetListen | JoinAccept | JoinResolver
    | Collect | StopSessions(todo: seq<nat>, all: seq<nat>) | JoinSessions(list: seq<nat>) | Clear

  datatype State = State(
    k: Kernel, running: bool, listen: int, listenSock: nat,
    control: Control, accept: Accept, resolver: Resolver,
    cache: seq<Endpoint>, resolutions: seq<seq<Endpoint>>,
    sessions: seq<Session>, table: map<nat, nat>, peers: map<nat, string>, nextId: nat, shutListener: set<nat>)

  const INITIAL := State(FRESH, false, INVALID, 0, Stopped, Accept.Off, Resolver.Off, [], [], [], map[], map[], 0, {})

  datatype Act =
    | Go
    | Opened(h: int)
    | Accepted(h: int, peer: string)
    | Nothing
    | Chosen(order: seq<nat>)
    | Resolved(result: seq<Endpoint>, candidates: nat)

  datatype Step = Control(act: Act) | Accept(act: Act) | Resolver(act: Act) | Worker(n: nat)

  predicate Listed(s: State, n: nat) {
    exists id :: id in s.table && s.table[id] == n
  }

  /** `order` lists the sessions of the table (or only the finished ones), each once. */
  ghost predicate IsSelection(s: State, finishedOnly: bool, order: seq<nat>) {
    && (forall a, b :: 0 <= a < b < |order| ==> order[a] != order[b])
    && (forall n: nat :: n in order <==>
          n < |s.sessions| && Listed(s, n) && (finishedOnly ==> s.sessions[n].phase.Finished?))
  }

  function With(s: State, n: nat, z: Session): State
    requires n < |s.sessions|
  {
    s.(sessions := s.sessions[n := z])
  }

  function Learn(cfg: Config, s: State, result: seq<Endpoint>): State {
    s.(resolutions := s.resolutions + [result], cache := Refreshed(cfg.preference, s.cache, result))
  }

  /** CleanupFinishedSessions, the part that holds the lock. */
  function Reaped(s: State, order: seq<nat>): State {
    s.(table := map id | id in s.table && s.table[id] !in order :: s.table[id],
       peers := map id | id in s.peers && !(id in s.table && s.table[id] in order) :: s.peers[id])
  }

  /** ForwardSession::Join returns at once when the worker was never started, and otherwise waits
      for it. */
  function JoinNext(s: State, n: nat): Option<State> {
    if n >= |s.sessions| then None
    else if s.sessions[n].phase.Fresh? then Some(s)
    else if s.sessions[n].phase.Finished? then Some(With(s, n, s.sessions[n].(phase := Joined)))
    else None
  }

  ghost function ReapNext(s: State, a: Act): Option<State>
    requires s.accept.Reap? || s.accept.Reaping?
  {
    match s.accept
    case Reap(final) =>
      if a.Chosen? && IsSelection(s, true, a.order) then Some(Reaped(s, a.order).(accept := Reaping(a.order, final)))
      else None
    case Reaping(list, final) =>
      if !a.Go? then None
      else if list == [] then Some(s.(accept := if final then Accept.Exited else Load))
      else (match JoinNext(s, list[0])
        case None => None
        case Some(s') => Some(s'.(accept := Reaping(list[1..], final))))
  }

  function AcceptNext(cfg: Config, s: State, a: Act): Option<State>
    requires !s.accept.Reap? && !s.accept.Reaping?
  {
    match s.accept
    case Off => None
    case Exited => None
    case Top => if a.Go? then Some(s.(accept := Reap(!s.running))) else None
    case Load => if a.Go? then Some(s.(accept := Have(s.listen))) else None
    case Have(h) => if a.Go? then Some(s.(accept := Accepting(Lookup(s.k, h)))) else None
    case Accepting(on) =>
      if a.Accepted? && on.Some? && Free(s.k, a.h) then
        Some(s.(k := Open(s.k, a.h), accept := Choose(End(a.h, s.k.next), a.peer)))
      else if a.Nothing? then Some(s.(accept := Failed))
      else None
    case Failed => if a.Go? then Some(s.(accept := if s.running then Accept.Top else Reap(true))) else None
    case Choose(c, peer) =>
      if a.Go? then
        Some(s.(accept := if s.cache == [] then Refresh(c, peer) else Connect(c, peer, s.cache, 0)))
      else None
    case Refresh(c, peer) =>
      if a.Resolved? then
        var s' := Learn(cfg, s, a.result);
        Some(s'.(accept := if s'.cache == [] then Drop(c) else Connect(c, peer, s'.cache, 0)))
      else None
    case Connect(c, peer, snap, i) =>
      if i >= |snap| then (if a.Go? then Some(s.(accept := Drop(c))) else None)
      else if a.Nothing? then Some(s.(accept := Connect(c, peer, snap, i + 1)))
      else if a.Opened? && Free(s.k, a.h) then
        Some(s.(k := Open(s.k, a.h), accept := Trial(c, peer, snap, i, End(a.h, s.k.next))))
      else None
    case Trial(c, peer, snap, i, u) =>
      if a.Go? then Some(s.(accept := Insert(c, peer, u)))
      else if a.Nothing? then Some(s.(k := Close(s.k, u.fd), accept := Connect(c, peer, snap, i + 1)))
      else None
    case Drop(c) => if a.Go? then Some(s.(k := Close(s.k, c.fd), accept := Accept.Top)) else None
    case Insert(c, peer, u) =>
      if a.Go? && s.nextId + 1 < U64 then
        var id, n := s.nextId + 1, |s.sessions|;
        Some(s.(nextId := id, sessions := s.sessions + [Session(c, u, peer, Fresh, false, false)],
                table := s.table[id := n], peers := s.peers[id := peer], accept := Start(n)))
      else None
    case Start(n) =>
      if a.Go? && n < |s.sessions| then
        Some(With(s, n, s.sessions[n].(phase := Relaying)).(accept := Accept.Top))
      else None
  }

  function WorkerNext(s: State, n: nat): Option<State> {
    if n >= |s.sessions| then None
    else
      var z := s.sessions[n];
      match z.phase
      case Relaying => Some(With(s, n, z.(phase := HalfClosed)).(k := Close(s.k, z.client.fd)))
      case HalfClosed => Some(With(s, n, z.(phase := Closed)).(k := Close(s.k, z.upstream.fd)))
      case Closed => Some(With(s, n, z.(phase := Finished)))
      case _ => None
  }

  function ResolverNext(cfg: Config, s: State, a: Act): Option<State> {
    if a.Go? then
      match Moved(s.resolver, s.running)
      case None => None
      case Some(r) => Some(s.(resolver := r))
    else if a.Resolved? && s.resolver.Ticking? then Some(Learn(cfg, s, a.result).(resolver := Resolver.Top))
    else None
  }

  /** ForwardSession::Stop as the stopping thread calls it: nothing the second time, otherwise both
      sockets are shut down if they are still open; it waits while the worker is closing them. */
  function AskedToStop(z: Session): Session {
    if z.stopping then z else z.(stopping := true, shut := z.phase.Relaying? || z.phase.Fresh?)
  }

  /** Start up to the point where the forwarder is up, and Stop up to the join of the accept thread. */
  function ListenNext(cfg: Config, s: State, a: Act): Option<State> {
    match s.control
    case Stopped =>
      if !a.Resolved? then None
      else if Arranged(a.result, cfg.preference) == [] then Some(Learn(cfg, s, a.result))
      else Some(Learn(cfg, s, a.result).(control := Trying(a.candidates)))
    case Trying(left) =>
      if left == 0 then (if a.Go? then Some(s.(control := Stopped)) else None)
      else if a.Go? then Some(s.(control := Trying(left - 1)))
      else if a.Opened? && Free(s.k, a.h) then
        Some(s.(k := Open(s.k, a.h), control := Candidate(a.h, s.k.next, left - 1)))
      else None
    case Candidate(h, x, left) =>
      if a.Nothing? then Some(s.(k := Close(s.k, h), control := Trying(left)))
      else if a.Go? then
        Some(s.(listen := h, listenSock := x, running := true, accept := Accept.Top, resolver := Resolver.Top,
                control := Up))
      else None
    case Up => if a.Go? then Some(s.(running := false, control := ShutListen)) else None
    case ShutListen =>
      if a.Go? then Some(s.(shutListener := s.shutListener + Reached(s.k, s.listen), control := CloseListen)) else None
    case CloseListen => if a.Go? then Some(s.(k := Close(s.k, s.listen), control := ForgetListen)) else None
    case ForgetListen => if a.Go? then Some(s.(listen := INVALID, control := JoinAccept)) else None
    case _ => None
  }

  /** The rest of Stop. */
  ghost function StopNext(s: State, a: Act): Option<State> {
    match s.control
    case JoinAccept =>
      if a.Go? && s.accept.Exited? then Some(s.(accept := Accept.Off, control := JoinResolver)) else None
    case JoinResolver =>
      if a.Go? && s.resolver.Exited? then Some(s.(resolver := Resolver.Off, control := Collect)) else None
    case Collect =>
      if a.Chosen? && IsSelection(s, false, a.order) then Some(s.(control := StopSessions(a.order, a.order))) else None
    case StopSessions(todo, all) =>
      if !a.Go? then None
      else if todo == [] then Some(s.(control := JoinSessions(all)))
      else if todo[0] < |s.sessions| && (s.sessions[todo[0]].stopping || !s.sessions[todo[0]].phase.HalfClosed?) then
        Some(With(s, todo[0], AskedToStop(s.sessions[todo[0]])).(control := StopSessions(todo[1..], all)))
      else None
    case JoinSessions(list) =>
      if !a.Go? then None
      else if list == [] then Some(s.(control := Clear))
      else (match JoinNext(s, list[0])
        case None => None
        case Some(s') => Some(s'.(control := JoinSessions(list[1..]))))
    case Clear => if a.Go? then Some(s.(table := map[], peers := map[], control := Stopped)) else None
    case _ => None
  }

  predicate Listening(c: Control) {
    c.Stopped? || c.Trying? || c.Candidate? || c.Up? || c.ShutListen? || c.CloseListen? || c.ForgetListen?
  }

  ghost function Next(cfg: Config, s: State, step: Step): Option<State> {
    match step
    case Control(a) => if Listening(s.control) then ListenNext(cfg, s, a) else StopNext(s, a)
    case Accept(a) => if s.accept.Reap? || s.accept.Reaping? then ReapNext(s, a) else AcceptNext(cfg, s, a)
    case Resolver(a) => ResolverNext(cfg, s, a)
    case Worker(n) => WorkerNext(s, n)
  }

  ghost function After(cfg: Config, s: State, run: seq<Step>): Option<State>
    decreases run
  {
    if run == [] then Some(s)
    else match Next(cfg, s, run[0])
      case None => None
      case Some(s') => After(cfg, s', run[1..])
  }

  ghost predicate Reachable(cfg: Config, s: State) {
    exists run :: After(cfg, INITIAL, run) == Some(s)
  }
}
