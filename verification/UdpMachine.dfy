/**
 A forwarder in UDP mode as a step system: the thread that calls Start and Stop, the UDP loop
 thread, the resolver thread and any number of receiver threads, over a kernel that may give a
 closed handle number to the next socket at once.
 */
module UdpMachine {
  import opened Sockets
  import opened Endpoints
  import opened TargetCache
  import opened Refresher
  import Clock

  type Payload = seq<Byte>

  datatype Config = Config(preference: Preference, idleSeconds: nat)

  /** Packets and bytes, as the 64-bit counters hold them. */
  datatype Tally = Tally(packets: nat, bytes: nat)

  /** Where a receiver thread stands in UdpUpstreamToClientLoop. `Have(h)`: the handle is loaded
      and about to be passed to recvfrom; `Blocked(x)`: inside recvfrom on what the number stood
      for; `Replying(p, x)`: datagram `p`, taken from kernel socket `x`, is about to be sent. */
  datatype Receiver =
    | NotStarted | Top | Load | Have(h: int) | Blocked(on: Option<nat>)
    | Replying(payload: Payload, x: nat) | Touching | Marking | Exited | Joined

  /** `sock` and `fd` are the kernel socket made for the session and its number; `handle` is the
      field `upstream_socket`.  `snapshot` and `made` record how the target was chosen. */
  datatype Session = Session(
    client: string, sock: nat, fd: int, handle: int,
    target: Endpoint, snapshot: seq<Endpoint>, made: seq<bool>,
    lastActive: int, marked: bool, thread: Receiver, up: Tally, down: Tally)

  datatype Stage = Shutdown | Close | Invalidate | Join

  datatype Loop =
    | Off | Init | Top | Load | Have(h: int) | Blocked(on: Option<nat>) | Failed
    | Find(client: string, payload: Payload)
    | Snapshot(client: string, payload: Payload)
    | Opening(client: string, payload: Payload, snap: seq<Endpoint>)
    | Insert(client: string, payload: Payload, h: int, x: nat, snap: seq<Endpoint>, made: seq<bool>, target: Endpoint)
    | Start(client: string, i: nat, payload: Payload)
    | Touch(client: string, i: nat, payload: Payload)
    | Send(client: string, i: nat, payload: Payload)
    | Maybe | Select(force: bool)
    | Sweep(list: seq<nat>, stage: Stage, force: bool)
    | Exited

  datatype Control =
    | Stopped | Trying(left: nat) | Candidate(h: int, x: nat, left: nat) | Up
    | ShutListen | CloseListen | ForgetListen | JoinLoop | JoinResolver
    | SelectAll | SweepAll(list: seq<nat>, stage: Stage)

  /** History of the datagrams passed on.  `took` is the datagram as it was received, `sent` how
      many of its bytes the send call accepted.  A reply was taken from kernel socket `sock` and
      sent to client `peer`; a forward came from client `peer` and left on `sock` for `target`. */
  datatype Reply = Reply(peer: string, sock: nat, took: Payload, sent: nat)
  datatype Forward = Forward(peer: string, sock: nat, target: Endpoint, took: Payload, sent: nat)

  /** `shut`: the kernel sockets that were shut down. */
  datatype State = State(
    k: Kernel, running: bool, listen: int, listenSock: nat,
    control: Control, loop: Loop, resolver: Resolver,
    cache: seq<Endpoint>, resolutions: seq<seq<Endpoint>>,
    table: map<string, nat>, sessions: seq<Session>,
    clock: int, lastCleanup: int,
    replies: seq<Reply>, forwards: seq<Forward>, shut: set<nat>)

  const INITIAL := State(FRESH, false, INVALID, 0, Stopped, Loop.Off, Resolver.Off, [], [], map[], [], 0, 0, [], [], {})

  /** What the environment decides in a step. */
  datatype Act =
    | Go
    | Now(now: int)
    | Got(from: string, data: Payload)
    | Nothing(transient: bool)
    | Opened(h: int, made: seq<bool>)
    | NoSocket(made: seq<bool>)
    | Sent(n: int)
    | Chosen(now: int, order: seq<nat>)
    | Resolved(result: seq<Endpoint>, candidates: nat)

  datatype Step = Control(act: Act) | Loop(act: Act) | Resolver(act: Act) | Receiver(i: nat, act: Act)

  // Pieces of the steps.

  /** The first endpoint of the list that fits and for which a socket is made. */
  function Pick(snap: seq<Endpoint>, made: seq<bool>): (r: Option<nat>)
    requires |snap| == |made|
    ensures r.Some? <==> exists i :: 0 <= i < |snap| && snap[i].addressLength <= STORAGE && made[i]
    ensures r.Some? ==> r.value < |snap| && snap[r.value].addressLength <= STORAGE && made[r.value]
    ensures r.Some? ==> forall i :: 0 <= i < r.value ==> snap[i].addressLength > STORAGE || !made[i]
  {
    if snap == [] then None
    else if snap[0].addressLength <= STORAGE && made[0] then Some(0)
    else
      assert forall i :: 0 < i < |snap| ==> snap[i] == snap[1..][i - 1] && made[i] == made[1..][i - 1];
      match Pick(snap[1..], made[1..])
      case None => None
      case Some(j) => Some(j + 1)
  }

  /** IPv4 and IPv6 addresses, of 16 and 28 bytes, fit: of such endpoints none is passed over, and the first for which a
      socket is made is chosen. */
  lemma NoneIsPassedOver(snap: seq<Endpoint>, made: seq<bool>)
    requires |snap| == |made|
    requires forall i :: 0 <= i < |snap| ==> snap[i].addressLength == 16 || snap[i].addressLength == 28
    ensures Pick(snap, made).None? <==> forall i :: 0 <= i < |made| ==> !made[i]
    ensures Pick(snap, made).Some? ==>
              made[Pick(snap, made).value] && forall i :: 0 <= i < Pick(snap, made).value ==> !made[i]
  {
  }

  function Count(t: Tally, n: nat): Tally {
    Tally((t.packets + 1) % U64, (t.bytes + n) % U64)
  }

  predicate Tick(s: State, now: int) {
    s.clock <= now && Clock.IsTime(now)
  }

  predicate Due(cfg: Config, z: Session, force: bool, now: int) {
    Clock.Due(z.marked, z.lastActive, cfg.idleSeconds, force, now)
  }

  predicate Listed(s: State, i: nat) {
    i < |s.sessions| && s.sessions[i].client in s.table && s.table[s.sessions[i].client] == i
  }

  /** `order` lists the sessions a sweep closes, each once, in the order it meets them. */
  ghost predicate IsSelection(cfg: Config, s: State, force: bool, now: int, order: seq<nat>) {
    && (forall a, b :: 0 <= a < b < |order| ==> order[a] != order[b])
    && (forall i: nat :: i in order <==> Listed(s, i) && Due(cfg, s.sessions[i], force, now))
  }

  function MarkAll(sessions: seq<Session>, order: seq<nat>): (r: seq<Session>)
    ensures |r| == |sessions|
    ensures forall i :: 0 <= i < |r| ==> r[i] == if i in order then sessions[i].(marked := true) else sessions[i]
  {
    seq(|sessions|, i requires 0 <= i < |sessions| => if i in order then sessions[i].(marked := true) else sessions[i])
  }

  /** The part of a sweep that holds the table lock. */
  function Selected(s: State, now: int, order: seq<nat>): State {
    s.(clock := now,
       table := map c | c in s.table && s.table[c] !in order :: s.table[c],
       sessions := MarkAll(s.sessions, order))
  }

  function With(s: State, i: nat, z: Session): State
    requires i < |s.sessions|
  {
    s.(sessions := s.sessions[i := z])
  }

  /** One action of the closing part of a sweep, on the session at the head of the list. */
  function CloseStep(s: State, list: seq<nat>, stage: Stage): Option<(State, seq<nat>, Stage)>
    requires list != []
  {
    if list[0] >= |s.sessions| then None
    else
      var z := s.sessions[list[0]];
      match stage
      case Shutdown => Some((s.(shut := s.shut + Reached(s.k, z.handle)), list, Close))
      case Close => Some((s.(k := Sockets.Close(s.k, z.handle)), list, Invalidate))
      case Invalidate => Some((With(s, list[0], z.(handle := INVALID)), list, Join))
      case Join =>
        if z.thread.NotStarted? then Some((s, list[1..], Shutdown))
        else if z.thread.Exited? then Some((With(s, list[0], z.(thread := Joined)), list[1..], Shutdown))
        else None
  }

  function Learn(cfg: Config, s: State, result: seq<Endpoint>): State {
    s.(resolutions := s.resolutions + [result], cache := Refreshed(cfg.preference, s.cache, result))
  }

  // The threads.

  ghost function LoopNext(cfg: Config, s: State, a: Act): Option<State> {
    match s.loop
    case Off => None
    case Exited => None
    case Init =>
      if a.Now? && Tick(s, a.now) then Some(s.(clock := a.now, lastCleanup := a.now, loop := Loop.Top)) else None
    case Top =>
      if a.Go? then Some(s.(loop := if s.running then Loop.Load else Select(true))) else None
    case Load => if a.Go? then Some(s.(loop := Loop.Have(s.listen))) else None
    case Have(h) => if a.Go? then Some(s.(loop := Loop.Blocked(Lookup(s.k, h)))) else None
    case Blocked(x) =>
      if a.Got? && x.Some? && a.data != [] then Some(s.(loop := Find(a.from, a.data)))
      else if a.Nothing? then Some(s.(loop := Failed))
      else None
    case Failed =>
      if a.Go? then Some(s.(loop := if s.running then Maybe else Select(true))) else None
    case Find(c, p) =>
      if a.Go? then Some(s.(loop := if c in s.table then Touch(c, s.table[c], p) else Snapshot(c, p))) else None
    case Snapshot(c, p) =>
      if a.Go? then Some(s.(loop := if s.cache == [] then Maybe else Opening(c, p, s.cache))) else None
    case Opening(c, p, snap) =>
      if a.Opened? && |a.made| == |snap| && Pick(snap, a.made).Some? && Free(s.k, a.h) then
        Some(s.(k := Open(s.k, a.h),
                loop := Insert(c, p, a.h, s.k.next, snap, a.made, snap[Pick(snap, a.made).value])))
      else if a.NoSocket? && |a.made| == |snap| && Pick(snap, a.made).None? then Some(s.(loop := Maybe))
      else None
    case Insert(c, p, h, x, snap, made, target) =>
      if !a.Now? || !Tick(s, a.now) then None
      else if c in s.table then
        Some(s.(clock := a.now, k := Sockets.Close(s.k, h), loop := Touch(c, s.table[c], p)))
      else
        var z := Session(c, x, h, h, target, snap, made, a.now, false, NotStarted,
                         Tally(0, 0), Tally(0, 0));
        Some(s.(clock := a.now, sessions := s.sessions + [z], table := s.table[c := |s.sessions|],
                loop := Start(c, |s.sessions|, p)))
    case Start(c, i, p) =>
      if a.Go? && i < |s.sessions| then
        Some(With(s, i, s.sessions[i].(thread := Receiver.Top)).(loop := Touch(c, i, p)))
      else None
    case Touch(c, i, p) =>
      if a.Now? && Tick(s, a.now) && i < |s.sessions| then
        Some(With(s, i, s.sessions[i].(lastActive := a.now)).(clock := a.now, loop := Send(c, i, p)))
      else None
    case Send(c, i, p) =>
      if !a.Sent? || a.n > |p| || i >= |s.sessions| then None
      else
        var z := s.sessions[i];
        if a.n <= 0 then Some(With(s, i, z.(marked := true)).(loop := Maybe))
        else if Lookup(s.k, z.handle).None? then None
        else Some(With(s, i, z.(up := Count(z.up, a.n)))
                  .(forwards := s.forwards + [Forward(c, Lookup(s.k, z.handle).value, z.target, p, a.n)],
                    loop := Maybe))
    case Maybe =>
      if !a.Now? || !Tick(s, a.now) then None
      else if !Clock.Sweeps(s.lastCleanup, a.now) then Some(s.(clock := a.now, loop := Loop.Top))
      else Some(s.(clock := a.now, lastCleanup := a.now, loop := Select(false)))
    case Select(force) =>
      if a.Chosen? && Tick(s, a.now) && IsSelection(cfg, s, force, a.now, a.order) then
        Some(Selected(s, a.now, a.order).(loop := Sweep(a.order, Shutdown, force)))
      else None
    case Sweep(list, stage, force) =>
      if !a.Go? then None
      else if list == [] then Some(s.(loop := if force then Loop.Exited else Loop.Top))
      else match CloseStep(s, list, stage)
        case None => None
        case Some((s', list', stage')) => Some(s'.(loop := Sweep(list', stage', force)))
  }

  function ReceiverNext(s: State, i: nat, a: Act): Option<State> {
    if i >= |s.sessions| then None
    else
      var z := s.sessions[i];
      match z.thread
      case NotStarted => None
      case Exited => None
      case Joined => None
      case Top =>
        if a.Go? then
          Some(With(s, i, z.(thread := if s.running && !z.marked then Receiver.Load else Marking)))
        else None
      case Load => if a.Go? then Some(With(s, i, z.(thread := Receiver.Have(z.handle)))) else None
      case Have(h) => if a.Go? then Some(With(s, i, z.(thread := Receiver.Blocked(Lookup(s.k, h))))) else None
      case Blocked(x) =>
        if a.Got? && x.Some? && a.data != [] then Some(With(s, i, z.(thread := Replying(a.data, x.value))))
        else if a.Nothing? && (a.transient ==> x.Some?) then
          Some(With(s, i, z.(thread := if a.transient then Receiver.Top else Marking)))
        else None
      case Replying(p, x) =>
        if !a.Sent? || a.n > |p| then None
        else if a.n <= 0 then Some(With(s, i, z.(thread := Marking)))
        else Some(With(s, i, z.(thread := Touching, down := Count(z.down, a.n)))
                  .(replies := s.replies + [Reply(z.client, x, p, a.n)]))
      case Touching =>
        if a.Now? && Tick(s, a.now) then
          Some(With(s, i, z.(thread := Receiver.Top, lastActive := a.now)).(clock := a.now))
        else None
      case Marking =>
        if a.Go? then Some(With(s, i, z.(thread := Receiver.Exited, marked := true))) else None
  }

  function ResolverNext(cfg: Config, s: State, a: Act): Option<State> {
    if a.Go? then
      match Moved(s.resolver, s.running)
      case None => None
      case Some(r) => Some(s.(resolver := r))
    else if a.Resolved? && s.resolver.Ticking? then Some(Learn(cfg, s, a.result).(resolver := Resolver.Top))
    else None
  }

  ghost function ControlNext(cfg: Config, s: State, a: Act): Option<State> {
    match s.control
    case Stopped =>
      if !a.Resolved? then None
      else if Arranged(a.result, cfg.preference) == [] then Some(Learn(cfg, s, a.result))
      else Some(Learn(cfg, s, a.result).(control := Trying(a.candidates)))
    case Trying(left) =>
      if left == 0 then (if a.Go? then Some(s.(control := Stopped)) else None)
      else if a.Go? then Some(s.(control := Trying(left - 1)))
      else if a.Opened? && Free(s.k, a.h) then
        Some(s.(k := Open(s.k, a.h), control := Candidate(a.h, s.k.next, left - 1)))
      else None
    case Candidate(h, x, left) =>
      if a.Nothing? then Some(s.(k := Sockets.Close(s.k, h), control := Trying(left)))
      else if a.Go? then
        Some(s.(listen := h, listenSock := x, running := true, loop := Init, resolver := Resolver.Top, control := Up))
      else None
    case Up => if a.Go? then Some(s.(running := false, control := ShutListen)) else None
    case ShutListen =>
      if a.Go? then Some(s.(shut := s.shut + Reached(s.k, s.listen), control := CloseListen)) else None
    case CloseListen =>
      if a.Go? then Some(s.(k := Sockets.Close(s.k, s.listen), control := ForgetListen)) else None
    case ForgetListen => if a.Go? then Some(s.(listen := INVALID, control := JoinLoop)) else None
    case JoinLoop =>
      if a.Go? && s.loop.Exited? then Some(s.(loop := Loop.Off, control := JoinResolver)) else None
    case JoinResolver =>
      if a.Go? && s.resolver.Exited? then Some(s.(resolver := Resolver.Off, control := SelectAll)) else None
    case SelectAll =>
      if a.Chosen? && Tick(s, a.now) && IsSelection(cfg, s, true, a.now, a.order) then
        Some(Selected(s, a.now, a.order).(control := SweepAll(a.order, Shutdown)))
      else None
    case SweepAll(list, stage) =>
      if !a.Go? then None
      else if list == [] then Some(s.(control := Stopped))
      else match CloseStep(s, list, stage)
        case None => None
        case Some((s', list', stage')) => Some(s'.(control := SweepAll(list', stage')))
  }

  ghost function Next(cfg: Config, s: State, step: Step): Option<State> {
    match step
    case Control(a) => ControlNext(cfg, s, a)
    case Loop(a) => LoopNext(cfg, s, a)
    case Resolver(a) => ResolverNext(cfg, s, a)
    case Receiver(i, a) => ReceiverNext(s, i, a)
  }

  /** The state after a run, if every step of it can be taken. */
  ghost function After(cfg: Config, s: State, run: seq<Step>): Option<State>
    decreases run
  {
    if run == [] then Some(s)
    else match Next(cfg, s, run[0])
      case None => None
      case Some(s') => After(cfg, s', run[1..])
  }

  ghost predicate Reachable(cfg: Config, s: State) {
    exists run :: After(cfg, INITIAL, run) == Some(s)
  }
}
