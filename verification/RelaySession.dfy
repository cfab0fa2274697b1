/**
 One TCP session (src/net/forward_session.cpp:44-95) as a step system: the worker thread, the two
 relay threads it starts, callers of Stop, the two peers, and the rest of the process, which may
 open a socket under any number the session has closed.
 */
module RelaySession {
  import opened Sockets
  import opened RelayProgram

  /** One of the session's two sockets.  `x` and `fd` are the kernel socket and its number, `handle`
      is the field of the session.  `sent` is what the peer has sent so far and `fin` says that it
      sent its last byte; the other flags say what became of the connection on this side. */
  datatype Sock = Sock(x: nat, fd: int, handle: int, sent: seq<Byte>, fin: bool,
                       readDown: bool, writeDown: bool, broken: bool)

  /** A relay thread; `Running` holds the handles it was given. */
  datatype Thread = NotStarted | Loading | Running(from: int, to: int, pc: Pc) | Joined(ending: Ending)

  datatype Line = Line(thread: Thread, taken: nat, delivered: seq<Byte>)

  datatype Worker =
    | Idle | SpawnUp | SpawnDown | JoinUp | JoinDown
    | Locking | CloseClient | ForgetClient | CloseUpstream | ForgetUpstream | Unlocking | Finishing | Exited

  /** A caller of Stop; calls follow one another. */
  datatype Stopper = Out | Entering | Waiting | ShutClient | ShutUpstream | Leaving

  datatype Lock = Free | ByWorker | ByStopper

  datatype State = State(
    k: Kernel, client: Sock, upstream: Sock, up: Line, down: Line,
    worker: Worker, stopping: bool, finished: bool, lock: Lock, stopper: Stopper)

  datatype Direction = Up | Down
  datatype Side = Client | Upstream

  datatype Step =
    | WorkerStep
    | StopperStep
    | LineStep(d: Direction, e: Event)
    | LoadStep(d: Direction)
    | Arrives(side: Side, bytes: seq<Byte>)
    | Ends(side: Side)
    | OthersOpen(h: int)
    | OthersClose(h: int)

  // Relay threads.

  function ShutBoth(z: Sock): Sock {
    z.(readDown := true, writeDown := true)
  }

  /** One call of a relay thread, as the kernel answers it: bytes come in the order the peer sent
      them, the end of the stream is reported once they are used up or when this side has shut the
      reading half, nothing can be sent once the writing half is shut, and any call may fail. */
  function LineNext(src: Sock, dst: Sock, l: Line, e: Event): Option<(Sock, Sock, Line)> {
    if !l.thread.Running? || After(l.thread.pc, e).None? then None
    else
      var l' := l.(thread := l.thread.(pc := After(l.thread.pc, e).value));
      match e
      case Received(data) =>
        if l.taken + |data| <= |src.sent| && data == src.sent[l.taken..l.taken + |data|] then
          Some((src, dst, l'.(taken := l.taken + |data|)))
        else None
      case ReceivedEof =>
        if src.readDown || (src.fin && l.taken == |src.sent|) then Some((src, dst, l')) else None
      case ReceivedError => Some((src.(broken := true), dst, l'))
      case Sent(bytes) =>
        if dst.writeDown then None else Some((src, dst, l'.(delivered := l.delivered + bytes)))
      case SendFailed => Some((src, dst, l'))
      case ShutWriteDestination => Some((src, dst.(writeDown := true), l'))
      case ShutBothSource => Some((ShutBoth(src), dst, l'))
      case ShutBothDestination => Some((src, ShutBoth(dst), l'))
  }

  // The session.

  function WithSide(s: State, side: Side, z: Sock): State {
    if side.Client? then s.(client := z) else s.(upstream := z)
  }

  function SideOf(s: State, side: Side): Sock {
    if side.Client? then s.client else s.upstream
  }

  function WorkerNext(s: State): Option<State> {
    match s.worker
    case Idle => Some(s.(worker := SpawnUp))
    case SpawnUp => Some(s.(worker := SpawnDown, up := s.up.(thread := Loading)))
    case SpawnDown => Some(s.(worker := JoinUp, down := s.down.(thread := Loading)))
    case JoinUp =>
      if s.up.thread.Running? && s.up.thread.pc.Returned? then
        Some(s.(worker := JoinDown, up := s.up.(thread := Joined(s.up.thread.pc.ending))))
      else None
    case JoinDown =>
      if s.down.thread.Running? && s.down.thread.pc.Returned? then
        Some(s.(worker := Locking, down := s.down.(thread := Joined(s.down.thread.pc.ending))))
      else None
    case Locking => if s.lock.Free? then Some(s.(lock := ByWorker, worker := CloseClient)) else None
    case CloseClient =>
      if s.client.handle != INVALID then
        Some(s.(k := Close(s.k, s.client.handle), worker := ForgetClient))
      else Some(s.(worker := CloseUpstream))
    case ForgetClient => Some(s.(client := s.client.(handle := INVALID), worker := CloseUpstream))
    case CloseUpstream =>
      if s.upstream.handle != INVALID then
        Some(s.(k := Close(s.k, s.upstream.handle), worker := ForgetUpstream))
      else Some(s.(worker := Unlocking))
    case ForgetUpstream => Some(s.(upstream := s.upstream.(handle := INVALID), worker := Unlocking))
    case Unlocking => Some(s.(lock := Free, worker := Finishing))
    case Finishing => Some(s.(finished := true, worker := Exited))
    case Exited => None
  }

  function StopperNext(s: State): Option<State> {
    match s.stopper
    case Out => Some(s.(stopper := Entering))
    case Entering => Some(s.(stopping := true, stopper := if s.stopping then Out else Waiting))
    case Waiting => if s.lock.Free? then Some(s.(lock := ByStopper, stopper := ShutClient)) else None
    case ShutClient =>
      Some(s.(client := if s.client.handle != INVALID then ShutBoth(s.client) else s.client, stopper := ShutUpstream))
    case ShutUpstream =>
      Some(s.(upstream := if s.upstream.handle != INVALID then ShutBoth(s.upstream) else s.upstream,
              stopper := Leaving))
    case Leaving => Some(s.(lock := Free, stopper := Out))
  }

  function LoadNext(s: State, d: Direction): Option<State> {
    match d
    case Up =>
      if s.up.thread.Loading? then
        Some(s.(up := s.up.(thread := Running(s.client.handle, s.upstream.handle, Receiving))))
      else None
    case Down =>
      if s.down.thread.Loading? then
        Some(s.(down := s.down.(thread := Running(s.upstream.handle, s.client.handle, Receiving))))
      else None
  }

  function RelayNext(s: State, d: Direction, e: Event): Option<State> {
    match d
    case Up => (match LineNext(s.client, s.upstream, s.up, e)
      case None => None
      case Some((c, u, l)) => Some(s.(client := c, upstream := u, up := l)))
    case Down => (match LineNext(s.upstream, s.client, s.down, e)
      case None => None
      case Some((u, c, l)) => Some(s.(client := c, upstream := u, down := l)))
  }

  function EnvironmentNext(s: State, step: Step): Option<State> {
    match step
    case Arrives(side, bytes) =>
      var z := SideOf(s, side);
      if z.fin || z.readDown then None else Some(WithSide(s, side, z.(sent := z.sent + bytes)))
    case Ends(side) =>
      var z := SideOf(s, side);
      if z.readDown then None else Some(WithSide(s, side, z.(fin := true)))
    case OthersOpen(h) => if Sockets.Free(s.k, h) then Some(s.(k := Open(s.k, h))) else None
    case OthersClose(h) =>
      if h in s.k.fds && s.k.fds[h] != s.client.x && s.k.fds[h] != s.upstream.x then
        Some(s.(k := Close(s.k, h)))
      else None
    case _ => None
  }

  function Next(s: State, step: Step): Option<State> {
    match step
    case WorkerStep => WorkerNext(s)
    case StopperStep => StopperNext(s)
    case LineStep(d, e) => RelayNext(s, d, e)
    case LoadStep(d) => LoadNext(s, d)
    case _ => EnvironmentNext(s, step)
  }

  function AfterAll(s: State, run: seq<Step>): Option<State>
    decreases run
  {
    if run == [] then Some(s)
    else match Next(s, run[0])
      case None => None
      case Some(s') => AfterAll(s', run[1..])
  }

  /** A session as AcceptLoop makes it: two different open sockets, nothing started. */
  predicate IsNew(s: State, k: Kernel) {
    && s.k == k && Names(k, s.client.fd, s.client.x) && Names(k, s.upstream.fd, s.upstream.x)
    && s.client.x != s.upstream.x
    && s.client == Sock(s.client.x, s.client.fd, s.client.fd, [], false, false, false, false)
    && s.upstream == Sock(s.upstream.x, s.upstream.fd, s.upstream.fd, [], false, false, false, false)
    && s.up == Line(NotStarted, 0, []) && s.down == Line(NotStarted, 0, [])
    && s.worker.Idle? && !s.stopping && !s.finished && s.lock.Free? && s.stopper.Out?
  }

  ghost predicate Reachable(s: State) {
    exists k, s0, run :: Valid(k) && IsNew(s0, k) && AfterAll(s0, run) == Some(s)
  }

  // Invariant.

  predicate Over(l: Line) {
    l.thread.Joined? || (l.thread.Running? && l.thread.pc.Returned?)
  }

  function EndingOf(l: Line): Ending
    requires Over(l)
  {
    if l.thread.Joined? then l.thread.ending else l.thread.pc.ending
  }

  /** The line met a receive error or a failed send. */
  predicate Troubled(l: Line) {
    || (l.thread.Running? && (l.thread.pc.AtError? || l.thread.pc.AtFailure? || l.thread.pc.AtFailureSourceDown?))
    || (Over(l) && !EndingOf(l).CleanEof?)
  }

  predicate SawEof(l: Line) {
    (l.thread.Running? && l.thread.pc.AtEof?) || (Over(l) && EndingOf(l).CleanEof?)
  }

  predicate SendBroke(l: Line) {
    (l.thread.Running? && Failing(l.thread.pc)) || (Over(l) && EndingOf(l).SendFailure?)
  }

  function Unsent(l: Line): seq<Byte> {
    if l.thread.Running? then Pending(l.thread.pc) else []
  }

  /** The bytes of a line: what was delivered, then the rest of the buffer, is what was taken. */
  predicate StreamOk(src: Sock, dst: Sock, l: Line) {
    && l.taken <= |src.sent|
    && (l.thread.NotStarted? || l.thread.Loading? ==> l.taken == 0 && l.delivered == [])
    && (l.thread.Running? ==> WellFormed(l.thread.pc))
    && (!SendBroke(l) ==> l.delivered + Unsent(l) == src.sent[..l.taken])
    && l.delivered <= src.sent[..l.taken]
  }

  /** What the end of a line says about its sockets. */
  predicate StatusOk(src: Sock, dst: Sock, l: Line) {
    && (l.thread.Running? ==> l.thread.from == src.fd && l.thread.to == dst.fd)
    && (SawEof(l) ==> src.readDown || (src.fin && l.taken == |src.sent|))
    && (Over(l) && EndingOf(l).CleanEof? ==> dst.writeDown)
    && (Over(l) && EndingOf(l).ReceiveError? ==> src.broken && dst.readDown && dst.writeDown)
    && (Over(l) && EndingOf(l).SendFailure? ==> src.readDown && src.writeDown && dst.readDown && dst.writeDown)
    && (l.thread.Running? && l.thread.pc.AtFailureSourceDown? ==> src.readDown && src.writeDown)
    && (l.thread.Running? && l.thread.pc.AtError? ==> src.broken)
  }

  predicate LineOk(src: Sock, dst: Sock, l: Line) {
    StreamOk(src, dst, l) && StatusOk(src, dst, l)
  }

  lemma LineKeepsStream(src: Sock, dst: Sock, l: Line, e: Event)
    requires StreamOk(src, dst, l) && LineNext(src, dst, l, e).Some?
    ensures var (src', dst', l') := LineNext(src, dst, l, e).value; StreamOk(src', dst', l')
  {
    var (src', dst', l') := LineNext(src, dst, l, e).value;
    StepConserves(l.thread.pc, e);
    if e.Received? {
      assert src.sent[..l.taken] + e.data == src.sent[..l.taken + |e.data|];
    } else if e.Sent? {
      assert l.delivered + Unsent(l) == (l.delivered + e.bytes) + Unsent(l');
    }
  }

  lemma LineKeepsStatus(src: Sock, dst: Sock, l: Line, e: Event)
    requires StatusOk(src, dst, l) && LineNext(src, dst, l, e).Some?
    ensures var (src', dst', l') := LineNext(src, dst, l, e).value; StatusOk(src', dst', l')
  {
  }

  /** Flags only go up, and the peer may go on sending until its stream is known to be over. */
  predicate Grows(z: Sock, z': Sock) {
    && z'.x == z.x && z'.fd == z.fd && z.sent <= z'.sent
    && (z.fin ==> z'.fin) && (z.readDown ==> z'.readDown) && (z.writeDown ==> z'.writeDown) && (z.broken ==> z'.broken)
    && (z.fin || z.readDown ==> z'.sent == z.sent)
  }

  lemma GrowthKeepsLine(src: Sock, dst: Sock, l: Line, src': Sock, dst': Sock)
    requires LineOk(src, dst, l) && Grows(src, src') && Grows(dst, dst')
    ensures LineOk(src', dst', l)
  {
    assert src'.sent[..l.taken] == src.sent[..l.taken];
  }

  lemma LineFrame(src: Sock, dst: Sock, l: Line, e: Event)
    requires LineNext(src, dst, l, e).Some?
    ensures var (src', dst', l') := LineNext(src, dst, l, e).value;
      && Grows(src, src') && Grows(dst, dst') && src'.sent == src.sent && dst'.sent == dst.sent
      && src'.handle == src.handle && dst'.handle == dst.handle && src'.fin == src.fin && dst'.fin == dst.fin
      && l.thread.Running? && l'.thread.Running? && !Over(l)
  {
  }

  lemma LineTrouble(src: Sock, dst: Sock, l: Line, e: Event)
    requires LineNext(src, dst, l, e).Some?
    ensures var (src', dst', l') := LineNext(src, dst, l, e).value;
      && (Troubled(l) ==> Troubled(l'))
      && (!Troubled(l') ==> src'.readDown == src.readDown && dst'.readDown == dst.readDown
                            && src'.writeDown == src.writeDown && (dst'.writeDown ==> dst.writeDown || Over(l')))
  {
  }

  predicate ClientClosed(w: Worker) {
    w.ForgetClient? || ClientForgotten(w)
  }

  predicate ClientForgotten(w: Worker) {
    w.CloseUpstream? || UpstreamClosed(w)
  }

  predicate UpstreamClosed(w: Worker) {
    w.ForgetUpstream? || UpstreamForgotten(w)
  }

  predicate UpstreamForgotten(w: Worker) {
    w.Unlocking? || w.Finishing? || w.Exited?
  }

  /** One socket of the session: open under its own number until the worker closes it, closed for
      good afterwards; the field forgets the number next. */
  ghost predicate SideOk(k: Kernel, z: Sock, closed: bool, forgotten: bool) {
    && z.x < k.next && z.fd >= 0
    && (if closed then !IsOpen(k, z.x) else Names(k, z.fd, z.x))
    && z.handle == (if forgotten then INVALID else z.fd)
  }

  ghost predicate HandlesOk(s: State) {
    && Valid(s.k) && s.client.x != s.upstream.x
    && SideOk(s.k, s.client, ClientClosed(s.worker), ClientForgotten(s.worker))
    && SideOk(s.k, s.upstream, UpstreamClosed(s.worker), UpstreamForgotten(s.worker))
  }

  predicate BothJoined(s: State) {
    s.up.thread.Joined? && s.down.thread.Joined?
  }

  predicate ThreadsOk(s: State) {
    && (s.up.thread.NotStarted? <==> s.worker.Idle? || s.worker.SpawnUp?)
    && (s.down.thread.NotStarted? <==> s.worker.Idle? || s.worker.SpawnUp? || s.worker.SpawnDown?)
    && (s.up.thread.Joined? <==> !s.worker.Idle? && !s.worker.SpawnUp? && !s.worker.SpawnDown? && !s.worker.JoinUp?)
    && (s.down.thread.Joined? <==> s.up.thread.Joined? && !s.worker.JoinDown?)
    && (s.lock.ByWorker? <==>
          s.worker.CloseClient? || (ClientClosed(s.worker) && !s.worker.Finishing? && !s.worker.Exited?))
    && (s.lock.ByStopper? <==> s.stopper.ShutClient? || s.stopper.ShutUpstream? || s.stopper.Leaving?)
    && (s.finished <==> s.worker.Exited?)
    && (!s.stopper.Out? && !s.stopper.Entering? ==> s.stopping)
  }

  predicate Down2(z: Sock) {
    z.readDown && z.writeDown
  }

  predicate TroubleOk(s: State) {
    && (!s.stopping && !Troubled(s.up) && !Troubled(s.down) ==>
          && !s.client.readDown && !s.upstream.readDown
          && (s.upstream.writeDown ==> Over(s.up)) && (s.client.writeDown ==> Over(s.down)))
    && (s.stopper.ShutUpstream? || s.stopper.Leaving? ==> Down2(s.client) || BothJoined(s))
    && (s.stopper.Leaving? ==> Down2(s.upstream) || BothJoined(s))
    && (s.stopping && (s.stopper.Out? || s.stopper.Entering?) ==>
          (Down2(s.client) && Down2(s.upstream)) || BothJoined(s))
  }

  ghost predicate Inv(s: State) {
    && HandlesOk(s) && ThreadsOk(s) && TroubleOk(s)
    && LineOk(s.client, s.upstream, s.up) && LineOk(s.upstream, s.client, s.down)
  }

  lemma SideIsClosed(k: Kernel, z: Sock)
    requires Valid(k) && SideOk(k, z, false, false)
    ensures z.handle != INVALID && z.handle in k.fds && Valid(Close(k, z.handle))
    ensures SideOk(Close(k, z.handle), z, true, false)
  {
    CloseKeepsValid(k, z.fd);
  }

  lemma OtherIsClosed(k: Kernel, z: Sock, h: int, closed: bool, forgotten: bool)
    requires Valid(k) && SideOk(k, z, closed, forgotten) && h in k.fds && k.fds[h] != z.x
    ensures SideOk(Close(k, h), z, closed, forgotten)
  {
    CloseKeepsValid(k, h);
  }

  lemma OtherIsOpened(k: Kernel, z: Sock, h: int, closed: bool, forgotten: bool)
    requires Valid(k) && SideOk(k, z, closed, forgotten) && Sockets.Free(k, h)
    ensures SideOk(Open(k, h), z, closed, forgotten)
  {
    OpenKeepsValid(k, h);
  }

  lemma WorkerClosesClient(s: State)
    requires HandlesOk(s) && s.worker.CloseClient? && WorkerNext(s).Some?
    ensures HandlesOk(WorkerNext(s).value) && s.client.handle != INVALID
  {
    SideIsClosed(s.k, s.client);
    OtherIsClosed(s.k, s.upstream, s.client.handle, false, false);
  }

  lemma WorkerClosesUpstream(s: State)
    requires HandlesOk(s) && s.worker.CloseUpstream? && WorkerNext(s).Some?
    ensures HandlesOk(WorkerNext(s).value) && s.upstream.handle != INVALID
  {
    SideIsClosed(s.k, s.upstream);
    OtherIsClosed(s.k, s.client, s.upstream.handle, true, true);
  }

  lemma WorkerElsewhere(s: State)
    requires !s.worker.CloseClient? && !s.worker.CloseUpstream? && WorkerNext(s).Some?
    requires SideOk(s.k, s.client, ClientClosed(s.worker), ClientForgotten(s.worker))
    requires SideOk(s.k, s.upstream, UpstreamClosed(s.worker), UpstreamForgotten(s.worker))
    ensures var s' := WorkerNext(s).value;
      && s'.k == s.k && s'.client.x == s.client.x && s'.upstream.x == s.upstream.x
      && SideOk(s.k, s'.client, ClientClosed(s'.worker), ClientForgotten(s'.worker))
      && SideOk(s.k, s'.upstream, UpstreamClosed(s'.worker), UpstreamForgotten(s'.worker))
  {
  }

  lemma WorkerKeepsHandles(s: State)
    requires HandlesOk(s) && WorkerNext(s).Some?
    ensures HandlesOk(WorkerNext(s).value)
    ensures s.worker.CloseClient? ==> s.client.handle != INVALID
    ensures s.worker.CloseUpstream? ==> s.upstream.handle != INVALID
  {
    if s.worker.CloseClient? {
      WorkerClosesClient(s);
    } else if s.worker.CloseUpstream? {
      WorkerClosesUpstream(s);
    } else {
      WorkerElsewhere(s);
    }
  }

  lemma SameHandles(s: State, s': State)
    requires HandlesOk(s) && s'.k == s.k && s'.worker == s.worker
    requires s'.client.x == s.client.x && s'.client.fd == s.client.fd && s'.client.handle == s.client.handle
    requires s'.upstream.x == s.upstream.x && s'.upstream.fd == s.upstream.fd && s'.upstream.handle == s.upstream.handle
    ensures HandlesOk(s')
  {
  }

  lemma WorkerKeepsThreads(s: State)
    requires ThreadsOk(s) && WorkerNext(s).Some?
    requires s.client.handle != INVALID || !s.worker.CloseClient?
    requires s.upstream.handle != INVALID || !s.worker.CloseUpstream?
    ensures ThreadsOk(WorkerNext(s).value)
  {
  }

  lemma WorkerKeepsTrouble(s: State)
    requires ThreadsOk(s) && TroubleOk(s) && WorkerNext(s).Some?
    ensures TroubleOk(WorkerNext(s).value)
  {
  }

  predicate OnlyHandle(z: Sock, z': Sock) {
    z'.(handle := 0) == z.(handle := 0)
  }

  lemma WorkerLines(s: State)
    requires WorkerNext(s).Some?
    ensures var s' := WorkerNext(s).value;
      && OnlyHandle(s.client, s'.client) && OnlyHandle(s.upstream, s'.upstream)
      && (s'.up == s.up || (s.up.thread != s'.up.thread && s'.up == s.up.(thread := s'.up.thread)
            && (s'.up.thread.Loading? || (Over(s.up) && s'.up.thread == Joined(EndingOf(s.up))))))
      && (s'.down == s.down || (s'.down == s.down.(thread := s'.down.thread)
            && (s'.down.thread.Loading? || (Over(s.down) && s'.down.thread == Joined(EndingOf(s.down))))))
      && (s'.up.thread.Loading? ==> s.up.thread.Loading? || s.worker.SpawnUp?)
      && (s'.down.thread.Loading? ==> s.down.thread.Loading? || s.worker.SpawnDown?)
  {
    WorkerSockets(s);
    WorkerUpLine(s);
    WorkerDownLine(s);
  }

  lemma WorkerSockets(s: State)
    requires WorkerNext(s).Some?
    ensures var s' := WorkerNext(s).value; OnlyHandle(s.client, s'.client) && OnlyHandle(s.upstream, s'.upstream)
  {
  }

  lemma WorkerUpLine(s: State)
    requires WorkerNext(s).Some?
    ensures var s' := WorkerNext(s).value;
      && (s'.up == s.up || (s.up.thread != s'.up.thread && s'.up == s.up.(thread := s'.up.thread)
            && (s'.up.thread.Loading? || (Over(s.up) && s'.up.thread == Joined(EndingOf(s.up))))))
      && (s'.up.thread.Loading? ==> s.up.thread.Loading? || s.worker.SpawnUp?)
  {
  }

  lemma WorkerDownLine(s: State)
    requires WorkerNext(s).Some?
    ensures var s' := WorkerNext(s).value;
      && (s'.down == s.down || (s'.down == s.down.(thread := s'.down.thread)
            && (s'.down.thread.Loading? || (Over(s.down) && s'.down.thread == Joined(EndingOf(s.down))))))
      && (s'.down.thread.Loading? ==> s.down.thread.Loading? || s.worker.SpawnDown?)
  {
  }

  lemma LineIsHandedOver(src: Sock, dst: Sock, l: Line, src': Sock, dst': Sock, l': Line)
    requires LineOk(src, dst, l) && OnlyHandle(src, src') && OnlyHandle(dst, dst')
    requires l' == l || (l' == l.(thread := l'.thread)
      && ((l'.thread.Loading? && l.thread.NotStarted?) || (Over(l) && l'.thread == Joined(EndingOf(l)))))
    ensures LineOk(src', dst', l')
  {
    assert src'.(handle := 0).sent == src'.sent && dst'.(handle := 0).sent == dst'.sent;
    GrowthKeepsLine(src, dst, l, src', dst');
  }

  lemma WorkerKeepsInv(s: State)
    requires Inv(s) && WorkerNext(s).Some?
    ensures Inv(WorkerNext(s).value)
  {
    var s' := WorkerNext(s).value;
    WorkerKeepsHandles(s);
    WorkerKeepsThreads(s);
    WorkerKeepsTrouble(s);
    WorkerLines(s);
    LineIsHandedOver(s.client, s.upstream, s.up, s'.client, s'.upstream, s'.up);
    LineIsHandedOver(s.upstream, s.client, s.down, s'.upstream, s'.client, s'.down);
  }

  lemma StopperFrame(s: State)
    requires StopperNext(s).Some?
    ensures var s' := StopperNext(s).value;
      && Grows(s.client, s'.client) && Grows(s.upstream, s'.upstream)
      && s'.client.handle == s.client.handle && s'.upstream.handle == s.upstream.handle
      && s'.k == s.k && s'.up == s.up && s'.down == s.down && s'.worker == s.worker && s'.finished == s.finished
  {
  }

  lemma StopperKeepsRest(s: State)
    requires ThreadsOk(s) && TroubleOk(s) && StopperNext(s).Some?
    requires s.client.handle == INVALID ==> BothJoined(s)
    requires s.upstream.handle == INVALID ==> BothJoined(s)
    ensures ThreadsOk(StopperNext(s).value) && TroubleOk(StopperNext(s).value)
  {
  }

  lemma GrowthKeepsInv(s: State, s': State)
    requires Inv(s) && Grows(s.client, s'.client) && Grows(s.upstream, s'.upstream) && s'.up == s.up
    requires s'.down == s.down
    requires HandlesOk(s') && ThreadsOk(s') && TroubleOk(s')
    ensures Inv(s')
  {
    GrowthKeepsLine(s.client, s.upstream, s.up, s'.client, s'.upstream);
    GrowthKeepsLine(s.upstream, s.client, s.down, s'.upstream, s'.client);
  }

  /** A forgotten handle means that both relay threads were joined. */
  lemma ForgottenMeansJoined(s: State)
    requires HandlesOk(s) && ThreadsOk(s)
    ensures s.client.handle == INVALID ==> BothJoined(s)
    ensures s.upstream.handle == INVALID ==> BothJoined(s)
  {
  }

  lemma StopperKeepsInv(s: State)
    requires Inv(s) && StopperNext(s).Some?
    ensures Inv(StopperNext(s).value)
  {
    var s' := StopperNext(s).value;
    StopperFrame(s);
    ForgottenMeansJoined(s);
    StopperKeepsRest(s);
    SameHandles(s, s');
    GrowthKeepsInv(s, s');
  }

  lemma LoadKeepsInv(s: State, d: Direction)
    requires Inv(s) && LoadNext(s, d).Some?
    ensures Inv(LoadNext(s, d).value)
  {
    assert !ClientForgotten(s.worker) && !UpstreamForgotten(s.worker);
  }

  lemma RelayKeepsInv(s: State, d: Direction, e: Event)
    requires Inv(s) && RelayNext(s, d, e).Some?
    ensures Inv(RelayNext(s, d, e).value)
  {
    var s' := RelayNext(s, d, e).value;
    if d.Up? {
      LineFrame(s.client, s.upstream, s.up, e);
      LineTrouble(s.client, s.upstream, s.up, e);
      LineKeepsStream(s.client, s.upstream, s.up, e);
      LineKeepsStatus(s.client, s.upstream, s.up, e);
      GrowthKeepsLine(s.upstream, s.client, s.down, s'.upstream, s'.client);
    } else {
      LineFrame(s.upstream, s.client, s.down, e);
      LineTrouble(s.upstream, s.client, s.down, e);
      LineKeepsStream(s.upstream, s.client, s.down, e);
      LineKeepsStatus(s.upstream, s.client, s.down, e);
      GrowthKeepsLine(s.client, s.upstream, s.up, s'.client, s'.upstream);
    }
    assert HandlesOk(s');
    assert ThreadsOk(s');
    assert TroubleOk(s');
  }

  lemma EnvironmentFrame(s: State, step: Step)
    requires EnvironmentNext(s, step).Some?
    ensures var s' := EnvironmentNext(s, step).value;
      && Grows(s.client, s'.client) && Grows(s.upstream, s'.upstream) && SameButPeers(s, s')
  {
  }

  predicate SameButPeers(s: State, s': State) {
    && s'.up == s.up && s'.down == s.down && s'.worker == s.worker && s'.stopping == s.stopping
    && s'.finished == s.finished && s'.lock == s.lock && s'.stopper == s.stopper
    && s'.client.handle == s.client.handle && s'.upstream.handle == s.upstream.handle
    && s'.client.readDown == s.client.readDown && s'.client.writeDown == s.client.writeDown
    && s'.upstream.readDown == s.upstream.readDown && s'.upstream.writeDown == s.upstream.writeDown
    && s'.client.broken == s.client.broken && s'.upstream.broken == s.upstream.broken
  }

  lemma OthersKeepHandles(s: State, step: Step)
    requires HandlesOk(s) && EnvironmentNext(s, step).Some? && (step.OthersOpen? || step.OthersClose?)
    ensures HandlesOk(EnvironmentNext(s, step).value)
  {
    var h := step.h;
    if step.OthersOpen? {
      OpenKeepsValid(s.k, h);
      OtherIsOpened(s.k, s.client, h, ClientClosed(s.worker), ClientForgotten(s.worker));
      OtherIsOpened(s.k, s.upstream, h, UpstreamClosed(s.worker), UpstreamForgotten(s.worker));
    } else {
      CloseKeepsValid(s.k, h);
      OtherIsClosed(s.k, s.client, h, ClientClosed(s.worker), ClientForgotten(s.worker));
      OtherIsClosed(s.k, s.upstream, h, UpstreamClosed(s.worker), UpstreamForgotten(s.worker));
    }
  }

  lemma EnvironmentKeepsHandles(s: State, step: Step)
    requires HandlesOk(s) && EnvironmentNext(s, step).Some?
    ensures HandlesOk(EnvironmentNext(s, step).value)
  {
    if step.OthersOpen? || step.OthersClose? {
      OthersKeepHandles(s, step);
    } else {
      SameHandles(s, EnvironmentNext(s, step).value);
    }
  }

  lemma EnvironmentKeepsInv(s: State, step: Step)
    requires Inv(s) && EnvironmentNext(s, step).Some?
    ensures Inv(EnvironmentNext(s, step).value)
  {
    var s' := EnvironmentNext(s, step).value;
    EnvironmentFrame(s, step);
    EnvironmentKeepsHandles(s, step);
    assert ThreadsOk(s') && TroubleOk(s');
    GrowthKeepsInv(s, s');
  }

  lemma StepKeepsInv(s: State, step: Step)
    requires Inv(s) && Next(s, step).Some?
    ensures Inv(Next(s, step).value)
  {
    match step {
      case WorkerStep => WorkerKeepsInv(s);
      case StopperStep => StopperKeepsInv(s);
      case LineStep(d, e) => RelayKeepsInv(s, d, e);
      case LoadStep(d) => LoadKeepsInv(s, d);
      case _ => EnvironmentKeepsInv(s, step);
    }
  }

  lemma {:induction false} RunKeepsInv(s: State, run: seq<Step>)
    requires Inv(s) && AfterAll(s, run).Some?
    ensures Inv(AfterAll(s, run).value)
    decreases run
  {
    if run != [] {
      StepKeepsInv(s, run[0]);
      RunKeepsInv(Next(s, run[0]).value, run[1..]);
    }
  }

  lemma NewIsInv(s: State, k: Kernel)
    requires Valid(k) && IsNew(s, k)
    ensures Inv(s)
  {
    assert IsOpen(k, s.client.x) && IsOpen(k, s.upstream.x);
  }

  lemma ReachableIsInv(s: State)
    requires Reachable(s)
    ensures Inv(s)
  {
    var k, s0, run :| Valid(k) && IsNew(s0, k) && AfterAll(s0, run) == Some(s);
    NewIsInv(s0, k);
    RunKeepsInv(s0, run);
  }

  // What this gives, in every reachable state.

  /** The kernel calls a step makes: the number it passes, and the socket it is meant for. */
  function Touches(s: State, step: Step): seq<(int, nat)> {
    match step
    case WorkerStep =>
      if s.worker.CloseClient? && s.client.handle != INVALID then [(s.client.handle, s.client.x)]
      else if s.worker.CloseUpstream? && s.upstream.handle != INVALID then [(s.upstream.handle, s.upstream.x)]
      else []
    case StopperStep =>
      if s.stopper.ShutClient? && s.client.handle != INVALID then [(s.client.handle, s.client.x)]
      else if s.stopper.ShutUpstream? && s.upstream.handle != INVALID then [(s.upstream.handle, s.upstream.x)]
      else []
    case LineStep(Up, e) => LineTouches(s.up.thread, s.client.x, s.upstream.x, e)
    case LineStep(Down, e) => LineTouches(s.down.thread, s.upstream.x, s.client.x, e)
    case _ => []
  }

  function LineTouches(t: Thread, src: nat, dst: nat, e: Event): seq<(int, nat)> {
    if !t.Running? then []
    else if e.Received? || e.ReceivedEof? || e.ReceivedError? || e.ShutBothSource? then [(t.from, src)]
    else [(t.to, dst)]
  }

  /** No call of the session ever reaches a socket that is not its own: whatever the schedule, and
      even if closed numbers are given away at once, every Recv, Send, Shutdown and Close hits the
      open socket it was meant for. */
  lemma NoUseAfterClose(s: State, step: Step)
    requires Reachable(s) && Next(s, step).Some?
    ensures forall t :: t in Touches(s, step) ==> Names(s.k, t.0, t.1)
  {
    ReachableIsInv(s);
    if step.LineStep? {
      RunningMeansOpen(s, step.d, step.e);
    } else {
      LockMeansOpen(s);
    }
  }

  lemma RunningMeansOpen(s: State, d: Direction, e: Event)
    requires Inv(s) && RelayNext(s, d, e).Some?
    ensures forall t :: t in Touches(s, LineStep(d, e)) ==> Names(s.k, t.0, t.1)
  {
    assert !ClientClosed(s.worker) && !UpstreamClosed(s.worker);
  }

  lemma LockMeansOpen(s: State)
    requires HandlesOk(s) && ThreadsOk(s)
    ensures (s.worker.CloseClient? || s.stopper.ShutClient?) && s.client.handle != INVALID ==>
              Names(s.k, s.client.handle, s.client.x)
    ensures (s.worker.CloseUpstream? || s.stopper.ShutUpstream?) && s.upstream.handle != INVALID ==>
              Names(s.k, s.upstream.handle, s.upstream.x)
  {
  }

  /** A finished session has closed both sockets, each exactly once, and forgotten both handles. */
  lemma FinishedMeansClosed(s: State)
    requires Reachable(s) && s.finished
    ensures !IsOpen(s.k, s.client.x) && !IsOpen(s.k, s.upstream.x)
    ensures s.k.closes[s.client.x] == 1 && s.k.closes[s.upstream.x] == 1 && s.k.stray == 0
    ensures s.client.handle == INVALID && s.upstream.handle == INVALID && BothJoined(s)
  {
    ReachableIsInv(s);
  }

  /** In both directions, at every moment, what was delivered is a prefix of what the peer sent. */
  lemma DeliveredIsPrefix(s: State)
    requires Reachable(s)
    ensures s.up.delivered <= s.client.sent && s.down.delivered <= s.upstream.sent
  {
    ReachableIsInv(s);
  }

  /** As long as Stop was not called and no call failed, a direction that has returned has delivered
      its peer's whole stream, and a destination's writing half is shut only then; what one direction
      does leaves the other untouched. */
  lemma CleanEndIsComplete(s: State)
    requires Reachable(s) && !s.stopping && !Troubled(s.up) && !Troubled(s.down)
    ensures Over(s.up) ==> s.client.fin && s.up.delivered == s.client.sent
    ensures Over(s.down) ==> s.upstream.fin && s.down.delivered == s.upstream.sent
    ensures s.upstream.writeDown ==> s.client.fin && s.up.delivered == s.client.sent
    ensures s.client.writeDown ==> s.upstream.fin && s.down.delivered == s.upstream.sent
    ensures !s.client.readDown && !s.upstream.readDown
  {
    ReachableIsInv(s);
    CompleteLine(s.client, s.upstream, s.up);
    CompleteLine(s.upstream, s.client, s.down);
  }

  lemma CompleteLine(src: Sock, dst: Sock, l: Line)
    requires LineOk(src, dst, l) && !src.readDown && !Troubled(l)
    ensures Over(l) ==> src.fin && l.delivered == src.sent
  {
    if Over(l) {
      assert src.sent[..|src.sent|] == src.sent;
      assert l.delivered + [] == l.delivered;
    }
  }
}
