/**
 The UDP session table as the loop thread works on it (src/net/forwarder.cpp:513-582, 644-714):
 looking a client up or making a session for it, and the sweep.  UdpMachine tells what the other
 threads may do between these steps.
 */
module UdpTable {
  import opened Sockets
  import opened Endpoints
  import opened OsCalls
  import Clock

  /** What a session holds at some moment.  `joinable`: its receiver was started and not joined. */
  datatype Record = Record(target: Endpoint, sock: nat, handle: int, lastActive: int, marked: bool, joinable: bool)

  class UdpSession {
    const client: string
    const target: Endpoint
    ghost const sock: nat
    var upstreamSocket: int
    var lastActive: int
    var marked: bool
    var joinable: bool

    constructor (client: string, target: Endpoint, upstreamSocket: int, now: int, ghost sock: nat)
      ensures this.client == client && View() == Record(target, sock, upstreamSocket, now, false, false)
    {
      this.client, this.target, this.upstreamSocket, this.sock := client, target, upstreamSocket, sock;
      lastActive, marked, joinable := now, false, false;
    }

    ghost function View(): Record
      reads this
    {
      Record(target, sock, upstreamSocket, lastActive, marked, joinable)
    }
  }

  type Records = map<string, Record>

  predicate Due(r: Record, idleSeconds: nat, force: bool, now: int) {
    Clock.Due(r.marked, r.lastActive, idleSeconds, force, now)
  }

  function DueKeys(m: Records, idleSeconds: nat, force: bool, now: int): set<string> {
    set c | c in m && Due(m[c], idleSeconds, force, now)
  }

  /** The part of a table a sweep leaves alone. */
  function Kept(m: Records, idleSeconds: nat, force: bool, now: int): Records {
    m - DueKeys(m, idleSeconds, force, now)
  }

  function Handles(m: Records, keys: set<string>): set<int> {
    set c | c in keys && c in m :: m[c].handle
  }

  /** A sweep splits the table: it keeps, unchanged, exactly the sessions that are not overdue. */
  predicate Splits(m: Records, kept: Records, idleSeconds: nat, force: bool, now: int) {
    Clock.IsTime(now) ==>
      forall c :: c in m && Clock.IsTime(m[c].lastActive) ==>
        && (c in kept <==> !Clock.Overdue(m[c].marked, m[c].lastActive, idleSeconds, force, now))
        && (c in kept ==> kept[c] == m[c])
  }

  lemma SweepSplitsTable(m: Records, idleSeconds: nat, force: bool, now: int)
    ensures Splits(m, Kept(m, idleSeconds, force, now), idleSeconds, force, now)
  {
    forall c | c in m && Clock.IsTime(now) && Clock.IsTime(m[c].lastActive)
      ensures c in Kept(m, idleSeconds, force, now) <==>
              !Clock.Overdue(m[c].marked, m[c].lastActive, idleSeconds, force, now)
    {
      Clock.DueIsOverdue(m[c].marked, m[c].lastActive, idleSeconds, force, now);
    }
  }

  ghost predicate RecordsOk(k: Kernel, m: Records) {
    && (forall c :: c in m ==> m[c].joinable && m[c].handle != INVALID && Names(k, m[c].handle, m[c].sock))
    && (forall c, d :: c in m && d in m && c != d ==> m[c].sock != m[d].sock)
  }

  lemma NewRecordOk(k: Kernel, k': Kernel, m: Records, key: string, r: Record)
    requires RecordsOk(k, m) && Sockets.Valid(k) && key !in m
    requires r.joinable && r.handle != INVALID && Free(k, r.handle) && k.next <= r.sock
    requires k'.fds == k.fds[r.handle := r.sock]
    ensures RecordsOk(k', m[key := r])
  {
  }

  /** Closing a socket just made leaves the open handles as they were before it. */
  lemma RejectedIsClosed(k: Kernel, k': Kernel, h: int)
    requires Sockets.Valid(k') && Free(k, h) && h in k'.fds && k'.fds == k.fds[h := k'.fds[h]]
    ensures Sockets.Valid(Close(k', h)) && Close(k', h).fds == k.fds
  {
    CloseKeepsValid(k', h);
  }

  lemma OthersStayOpen(k: Kernel, k': Kernel, m: Records, due: set<string>)
    requires RecordsOk(k, m) && k'.fds == k.fds - Handles(m, due) && due <= m.Keys
    ensures RecordsOk(k', m - due)
  {
    forall c, d | c in m && c !in due && d in due ensures m[c].handle != m[d].handle {
      assert m[c].sock != m[d].sock;
    }
  }

  /** The calls that close a handle. */
  function ClosingOne(k: Kernel, h: int): seq<Call> {
    if h in k.fds && h != INVALID then [Shut(k.fds[h]), Closed(k.fds[h])] else []
  }

  /** The first `n` of some handles are closed, one after the other. */
  function ClosedUpTo(k: Kernel, hs: seq<int>, n: nat): Kernel
    requires n <= |hs|
  {
    if n == 0 then k else Close(ClosedUpTo(k, hs, n - 1), hs[n - 1])
  }

  /** The log after that. */
  function LogUpTo(k: Kernel, log: seq<Call>, hs: seq<int>, n: nat): seq<Call>
    requires n <= |hs|
  {
    if n == 0 then log else LogUpTo(k, log, hs, n - 1) + ClosingOne(ClosedUpTo(k, hs, n - 1), hs[n - 1])
  }

  lemma {:induction false} ClosedUpToIsMany(k: Kernel, hs: seq<int>, n: nat)
    requires n <= |hs|
    ensures ClosedUpTo(k, hs, n) == CloseMany(k, hs[..n])
  {
    if n > 0 {
      ClosedUpToIsMany(k, hs, n - 1);
      assert hs[..n][..n - 1] == hs[..n - 1];
    }
  }

  /** Among the calls after the first `n`, socket `x` is shut down and closed next. */
  ghost predicate ShutThenClosed(log: seq<Call>, n: nat, x: nat) {
    exists i :: n <= i < |log| - 1 && log[i] == Shut(x) && log[i + 1] == Closed(x)
  }

  lemma LaterToo(log: seq<Call>, n: nat, x: nat, more: seq<Call>)
    requires ShutThenClosed(log, n, x)
    ensures ShutThenClosed(log + more, n, x)
  {
    var i :| n <= i < |log| - 1 && log[i] == Shut(x) && log[i + 1] == Closed(x);
    assert (log + more)[i] == Shut(x) && (log + more)[i + 1] == Closed(x);
  }

  lemma LastTwo(log: seq<Call>, n: nat, x: nat)
    requires n <= |log|
    ensures ShutThenClosed(log + [Shut(x), Closed(x)], n, x)
  {
    var all := log + [Shut(x), Closed(x)];
    assert all[|log|] == Shut(x) && all[|log| + 1] == Closed(x);
  }

  lemma NextIsOpen(k: Kernel, hs: seq<int>, n: nat)
    requires Sockets.Valid(k) && (forall h :: h in hs ==> h in k.fds) && n < |hs|
    requires forall i, j :: 0 <= i < j < |hs| ==> hs[i] != hs[j]
    ensures ClosingOne(ClosedUpTo(k, hs, n), hs[n]) == [Shut(k.fds[hs[n]]), Closed(k.fds[hs[n]])]
  {
    ClosedUpToIsMany(k, hs, n);
    CloseManyKeepsValid(k, hs[..n]);
    assert hs[n] in hs && hs[n] !in hs[..n];
  }

  /** Different open handles: each socket is shut down, then closed. */
  lemma {:induction false} ClosingInOrder(k: Kernel, log: seq<Call>, hs: seq<int>, n: nat, i: nat)
    requires Sockets.Valid(k) && (forall h :: h in hs ==> h in k.fds) && i < n <= |hs|
    requires forall i, j :: 0 <= i < j < |hs| ==> hs[i] != hs[j]
    ensures log <= LogUpTo(k, log, hs, n) && ShutThenClosed(LogUpTo(k, log, hs, n), |log|, k.fds[hs[i]])
  {
    var before, x := LogUpTo(k, log, hs, n - 1), k.fds[hs[n - 1]];
    NextIsOpen(k, hs, n - 1);
    assert LogUpTo(k, log, hs, n) == before + [Shut(x), Closed(x)];
    LogGrows(k, log, hs, n - 1);
    if i == n - 1 {
      LastTwo(before, |log|, x);
    } else {
      ClosingInOrder(k, log, hs, n - 1, i);
      LaterToo(before, |log|, k.fds[hs[i]], [Shut(x), Closed(x)]);
    }
  }

  lemma {:induction false} LogGrows(k: Kernel, log: seq<Call>, hs: seq<int>, n: nat)
    requires n <= |hs|
    ensures log <= LogUpTo(k, log, hs, n)
  {
    if n > 0 { LogGrows(k, log, hs, n - 1); }
  }

  class UdpSessions {
    const idleSeconds: nat
    const os: Os
    var sessions: map<string, UdpSession>
    var lastCleanup: int

    constructor (os: Os, idleSeconds: nat, now: int)
      requires Sockets.Valid(os.k)
      ensures Valid() && this.os == os && this.idleSeconds == idleSeconds && sessions == map[] && lastCleanup == now
    {
      this.os, this.idleSeconds, sessions, lastCleanup := os, idleSeconds, map[], now;
    }

    ghost function Views(): Records
      reads this, sessions.Values
    {
      map c | c in sessions :: sessions[c].View()
    }

    /** Every session stands under its own client and has an open socket of its own and a running
        receiver. */
    ghost predicate Valid()
      reads this, os, sessions.Values
    {
      && Sockets.Valid(os.k)
      && (forall c :: c in sessions ==> sessions[c].client == c)
      && RecordsOk(os.k, Views())
    }

    static ghost function ViewsOf(whole: map<string, UdpSession>): Records
      reads whole.Values
    {
      map c | c in whole :: whole[c].View()
    }

    static predicate Marked(m: Records, v: Records, done: set<string>) {
      v.Keys == m.Keys && forall c :: c in m ==> v[c] == if c in done then m[c].(marked := true) else m[c]
    }

    /** The sessions `done` of the table `whole`, which held `m`, are marked and listed, each once. */
    static ghost predicate Taken(whole: map<string, UdpSession>, m: Records, done: set<string>,
            closing: seq<UdpSession>)
      reads whole.Values
    {
      m.Keys == whole.Keys && Marked(m, ViewsOf(whole), done) && Lists(whole, done, closing)
    }

    static ghost predicate Lists(whole: map<string, UdpSession>, done: set<string>, closing: seq<UdpSession>) {
      && (forall i, j :: 0 <= i < j < |closing| ==> closing[i].client != closing[j].client)
      && (forall z :: z in closing ==> z.client in done && z.client in whole && whole[z.client] == z)
      && (forall c :: c in done && c in whole ==> whole[c] in closing)
    }

    /** The test and the marking of one session. */
    method Take(z: UdpSession, force: bool, now: int) returns (close: bool)
      modifies z`marked
      ensures close == Due(old(z.View()), idleSeconds, force, now)
      ensures z.View() == if close then old(z.View()).(marked := true) else old(z.View())
    {
      var idle := Clock.Idle(now, z.lastActive, z.lastActive, Clock.TimeoutMs(idleSeconds));
      close := force || z.marked || idle;
      if close {
        z.marked := true;
      }
    }

    /** The other sessions of the table are not marked by this. */
    method TakeFrom(c: string, z: UdpSession, force: bool, now: int, ghost whole: map<string, UdpSession>)
        returns (close: bool)
      requires c in whole && whole[c] == z && forall d :: d in whole ==> whole[d].client == d
      modifies whole.Values
      ensures close == Due(old(z.View()), idleSeconds, force, now)
      ensures ViewsOf(whole) ==
              if close then old(ViewsOf(whole))[c := old(z.View()).(marked := true)] else old(ViewsOf(whole))
    {
      assert z in whole.Values;
      assert forall d :: d in whole && d != c ==> whole[d].client != z.client;
      close := Take(z, force, now);
      assert forall d :: d in whole && d != c ==> whole[d].View() == old(whole[d].View());
    }

    /** One iteration of the sweep; `done` are the clients erased so far. */
    method SelectOne(c: string, force: bool, now: int, closing: seq<UdpSession>,
                     ghost whole: map<string, UdpSession>, ghost m: Records, ghost done: set<string>)
        returns (closing': seq<UdpSession>, ghost done': set<string>)
      requires sessions == whole - done && c in whole && c !in done && Taken(whole, m, done, closing)
      requires forall d :: d in whole ==> whole[d].client == d
      modifies this`sessions, whole.Values
      ensures done' == if Due(m[c], idleSeconds, force, now) then done + {c} else done
      ensures sessions == whole - done' && Taken(whole, m, done', closing')
    {
      var z := sessions[c];
      ghost var v := ViewsOf(whole);
      assert (whole - done) - {c} == whole - (done + {c});
      var close := TakeFrom(c, z, force, now, whole);
      if close {
        MarkedOneMore(whole, m, v, done, closing, c);
        assert Taken(whole, m, done + {c}, closing + [z]);
        closing', done' := closing + [z], done + {c};
        sessions := sessions - {c};
      } else {
        closing', done' := closing, done;
      }
    }

    /** The part of the sweep under the table lock: erasing while iterating. */
    method Select(force: bool, now: int) returns (closing: seq<UdpSession>)
      requires Valid()
      modifies this`sessions, sessions.Values
      ensures sessions == old(sessions) - DueKeys(old(Views()), idleSeconds, force, now)
      ensures Taken(old(sessions), old(Views()), DueKeys(old(Views()), idleSeconds, force, now), closing)
    {
      ghost var m, whole := Views(), sessions;
      ghost var done: set<string> := {};
      closing := [];
      assert whole == whole - done && Taken(whole, m, done, closing);
      var todo := sessions.Keys;
      while todo != {}
        invariant todo <= whole.Keys && done <= whole.Keys && done !! todo
        invariant forall c :: c in whole && c !in todo ==> (c in done <==> Due(m[c], idleSeconds, force, now))
        invariant sessions == whole - done && Taken(whole, m, done, closing)
      {
        var c :| c in todo;
        todo := todo - {c};
        closing, done := SelectOne(c, force, now, closing, whole, m, done);
      }
      AllDueAreDone(m, done, idleSeconds, force, now);
    }

    static lemma AllDueAreDone(m: Records, done: set<string>, idleSeconds: nat, force: bool, now: int)
      requires done <= m.Keys && forall c :: c in m ==> (c in done <==> Due(m[c], idleSeconds, force, now))
      ensures done == DueKeys(m, idleSeconds, force, now)
    {
    }

    static lemma MarkedOneMore(whole: map<string, UdpSession>, m: Records, v: Records, done: set<string>,
            closing: seq<UdpSession>, c: string)
      requires Marked(m, v, done) && Lists(whole, done, closing)
      requires c in whole && c in m && c !in done && whole[c].client == c
      ensures Marked(m, v[c := m[c].(marked := true)], done + {c})
      ensures Lists(whole, done + {c}, closing + [whole[c]])
    {
      ListOneMore(whole, done, closing, c);
    }

    static lemma ListOneMore(whole: map<string, UdpSession>, done: set<string>, closing: seq<UdpSession>, c: string)
      requires Lists(whole, done, closing) && c in whole && c !in done && whole[c].client == c
      ensures Lists(whole, done + {c}, closing + [whole[c]])
    {
    }

    /** One session: shut down, close, forget the number, join. */
    method CloseOne(z: UdpSession, ghost h: int)
      requires z.View().handle == h
      modifies os, z
      ensures os.k == Close(old(os.k), h)
      ensures os.log == old(os.log) + ClosingOne(old(os.k), h)
      ensures z.View() == old(z.View()).(handle := INVALID, joinable := false)
    {
      os.ShutdownBoth(z.upstreamSocket);
      os.CloseSocket(z.upstreamSocket);
      z.upstreamSocket := INVALID;
      z.joinable := false;
    }

    /** The part of the sweep outside the lock. */
    method CloseAll(closing: seq<UdpSession>, ghost hs: seq<int>)
      requires |hs| == |closing| && forall i :: 0 <= i < |hs| ==> closing[i].View().handle == hs[i]
      requires forall i, j :: 0 <= i < j < |closing| ==> closing[i] != closing[j]
      modifies os, closing
      ensures os.k == CloseMany(old(os.k), hs) && os.log == LogUpTo(old(os.k), old(os.log), hs, |hs|)
      ensures forall z :: z in closing ==> z.View() == old(z.View()).(handle := INVALID, joinable := false)
    {
      ghost var k, log := os.k, os.log;
      for n := 0 to |closing|
        invariant os.k == ClosedUpTo(k, hs, n) && os.log == LogUpTo(k, log, hs, n)
        invariant forall i :: 0 <= i < n ==>
                    closing[i].View() == old(closing[i].View()).(handle := INVALID, joinable := false)
        invariant forall i :: n <= i < |closing| ==> closing[i].View() == old(closing[i].View())
      {
        assert closing[n].View().handle == hs[n];
        CloseOne(closing[n], hs[n]);
      }
      ClosedUpToIsMany(k, hs, |hs|);
      assert hs[..|hs|] == hs;
    }

    /** The handles of the sessions a sweep took out. */
    static lemma HandlesOfTaken(whole: map<string, UdpSession>, m: Records, due: set<string>, closing: seq<UdpSession>,
            k: Kernel)
        returns (hs: seq<int>)
      requires RecordsOk(k, m) && due <= m.Keys == whole.Keys && Lists(whole, due, closing)
      requires forall c :: c in whole ==> whole[c].client == c
      ensures |hs| == |closing| && forall i :: 0 <= i < |hs| ==>
                closing[i].client in m && hs[i] == m[closing[i].client].handle
      ensures (set h | h in hs) == Handles(m, due)
      ensures forall h :: h in hs ==> h in k.fds
      ensures forall i, j :: 0 <= i < j < |hs| ==> hs[i] != hs[j]
      ensures forall c :: c in due ==> m[c].handle in hs
    {
      hs := seq(|closing|, i requires 0 <= i < |closing| && closing[i].client in m => m[closing[i].client].handle);
      forall i, j | 0 <= i < j < |hs| ensures hs[i] != hs[j] {
        assert m[closing[i].client].sock != m[closing[j].client].sock;
      }
      forall c | c in due ensures m[c].handle in hs {
        assert whole[c] in closing;
        var i :| 0 <= i < |closing| && closing[i] == whole[c];
        assert hs[i] == m[closing[i].client].handle;
      }
    }

    /** The sessions `due` of the table `whole`, which held `m`, have been closed and joined. */
    static ghost predicate Swept(whole: map<string, UdpSession>, m: Records, due: set<string>)
      reads whole.Values
    {
      && m.Keys == whole.Keys
      && forall c :: c in whole ==>
           whole[c].View() == if c in due then m[c].(marked := true, handle := INVALID, joinable := false) else m[c]
    }

    /** The same, seen from a table that lists the sessions under `due`: only they change. */
    method CloseListed(closing: seq<UdpSession>, ghost hs: seq<int>, ghost whole: map<string, UdpSession>,
            ghost due: set<string>)
      requires Lists(whole, due, closing) && forall c :: c in whole ==> whole[c].client == c
      requires |hs| == |closing| && forall i :: 0 <= i < |hs| ==> closing[i].View().handle == hs[i]
      modifies os, closing
      ensures os.k == CloseMany(old(os.k), hs) && os.log == LogUpTo(old(os.k), old(os.log), hs, |hs|)
      ensures forall c :: c in whole ==>
                whole[c].View() == if c in due then old(whole[c].View()).(handle := INVALID, joinable := false)
                                   else old(whole[c].View())
    {
      CloseAll(closing, hs);
      forall c | c in whole ensures whole[c] in closing <==> c in due {
      }
    }

    method CloseTaken(closing: seq<UdpSession>, ghost whole: map<string, UdpSession>, ghost m: Records,
            ghost due: set<string>)
      requires Sockets.Valid(os.k) && RecordsOk(os.k, m) && due <= m.Keys && Taken(whole, m, due, closing)
      requires forall c :: c in whole ==> whole[c].client == c
      modifies os, closing
      ensures Swept(whole, m, due) && Sockets.Valid(os.k) && os.k.fds == old(os.k.fds) - Handles(m, due)
      ensures forall c :: c in due ==> !IsOpen(os.k, m[c].sock)
      ensures old(os.log) <= os.log && forall c :: c in due ==> ShutThenClosed(os.log, |old(os.log)|, m[c].sock)
    {
      ghost var k, log := os.k, os.log;
      ghost var hs := HandlesOfTaken(whole, m, due, closing, k);
      assert forall i :: 0 <= i < |hs| ==> closing[i].View().handle == hs[i];
      CloseListed(closing, hs, whole, due);
      SweepCloses(k, log, m, due, hs);
    }

    /** What closing the handles of the sessions `due` comes to. */
    static lemma SweepCloses(k: Kernel, log: seq<Call>, m: Records, due: set<string>, hs: seq<int>)
      requires Sockets.Valid(k) && RecordsOk(k, m) && due <= m.Keys && (forall h :: h in hs ==> h in k.fds)
      requires forall i, j :: 0 <= i < j < |hs| ==> hs[i] != hs[j]
      requires (set h | h in hs) == Handles(m, due) && forall c :: c in due ==> m[c].handle in hs
      ensures var k' := CloseMany(k, hs);
        && Sockets.Valid(k') && k'.fds == k.fds - Handles(m, due)
        && (forall c :: c in due ==> !IsOpen(k', m[c].sock))
        && (forall c :: c in due ==> ShutThenClosed(LogUpTo(k, log, hs, |hs|), |log|, m[c].sock))
        && log <= LogUpTo(k, log, hs, |hs|)
    {
      CloseManyKeepsValid(k, hs);
      SocketsOf(k, CloseMany(k, hs), m, due, hs);
      CallsOf(k, log, m, due, hs);
      LogGrows(k, log, hs, |hs|);
    }

    static lemma CallsOf(k: Kernel, log: seq<Call>, m: Records, due: set<string>, hs: seq<int>)
      requires Sockets.Valid(k) && RecordsOk(k, m) && due <= m.Keys && (forall h :: h in hs ==> h in k.fds)
      requires forall i, j :: 0 <= i < j < |hs| ==> hs[i] != hs[j]
      requires forall c :: c in due ==> m[c].handle in hs
      ensures forall c :: c in due ==> ShutThenClosed(LogUpTo(k, log, hs, |hs|), |log|, m[c].sock)
    {
      forall c | c in due ensures ShutThenClosed(LogUpTo(k, log, hs, |hs|), |log|, m[c].sock) {
        var i :| 0 <= i < |hs| && hs[i] == m[c].handle;
        ClosingInOrder(k, log, hs, |hs|, i);
      }
    }

    static lemma SocketsOf(k: Kernel, k': Kernel, m: Records, due: set<string>, hs: seq<int>)
      requires RecordsOk(k, m) && due <= m.Keys && (forall c :: c in due ==> m[c].handle in hs)
      requires forall h :: h in hs ==> h in k.fds && !IsOpen(k', k.fds[h])
      ensures forall c :: c in due ==> !IsOpen(k', m[c].sock)
    {
      forall c | c in due ensures !IsOpen(k', m[c].sock) {
        assert m[c].handle in hs;
      }
    }

    lemma ViewsAreKept(whole: map<string, UdpSession>, m: Records, due: set<string>)
      requires Swept(whole, m, due) && sessions == whole - due
      ensures Views() == m - due
    {
      assert forall c :: c in sessions ==> c in whole && sessions[c] == whole[c];
    }

    /** CleanupIdleUdpSessions.  The table keeps exactly what a sweep leaves alone, and every other
        session is marked, its socket closed and its receiver joined; nothing else is closed. */
    method Cleanup(force: bool, now: int)
      requires Valid()
      modifies this`sessions, os, sessions.Values
      ensures Valid()
      ensures Views() == Kept(old(Views()), idleSeconds, force, now)
      ensures Splits(old(Views()), Views(), idleSeconds, force, now)
      ensures var due := DueKeys(old(Views()), idleSeconds, force, now);
        && sessions == old(sessions) - due
        && os.k.fds == old(os.k.fds) - Handles(old(Views()), due)
        && forall c :: c in due ==>
             && old(sessions)[c].View() == old(Views())[c].(marked := true, handle := INVALID, joinable := false)
             && !IsOpen(os.k, old(Views())[c].sock)
             && ShutThenClosed(os.log, |old(os.log)|, old(Views())[c].sock)
    {
      ghost var m, whole, k := Views(), sessions, os.k;
      ghost var due := DueKeys(m, idleSeconds, force, now);
      var closing := Select(force, now);
      assert forall z :: z in closing ==> z in whole.Values;
      CloseTaken(closing, whole, m, due);
      OthersStayOpen(k, os.k, m, due);
      ViewsAreKept(whole, m, due);
      SweepSplitsTable(m, idleSeconds, force, now);
    }

    /** MaybeCleanupIdleUdpSessions; `sweepNow` is the clock reading of the sweep, if there is one. */
    method MaybeCleanup(now: int, sweepNow: int)
      requires Valid()
      modifies this, os, sessions.Values
      ensures Valid()
      ensures lastCleanup == if Clock.Minus(now, old(lastCleanup)) >= 1000 then now else old(lastCleanup)
      ensures Clock.Minus(now, old(lastCleanup)) < 1000 ==>
                sessions == old(sessions) && Views() == old(Views()) && os.k == old(os.k)
      ensures Clock.Minus(now, old(lastCleanup)) >= 1000 ==>
                var due := DueKeys(old(Views()), idleSeconds, false, sweepNow);
                && Splits(old(Views()), Views(), idleSeconds, false, sweepNow)
                && Views() == Kept(old(Views()), idleSeconds, false, sweepNow) && sessions == old(sessions) - due
                && os.k.fds == old(os.k.fds) - Handles(old(Views()), due)
    {
      ghost var m := Views();
      if Clock.Minus(now, lastCleanup) < Clock.CLEANUP_INTERVAL {
        return;
      }
      lastCleanup := now;
      assert Views() == m && Valid();
      Cleanup(false, sweepNow);
    }

    /** A new session around a socket just made: it enters the table and its receiver starts. */
    method Add(key: string, target: Endpoint, upstream: int, now: int, ghost k: Kernel) returns (session: UdpSession)
      requires key !in sessions && forall c :: c in sessions ==> sessions[c].client == c
      requires Sockets.Valid(k) && RecordsOk(k, Views()) && Free(k, upstream)
      requires Sockets.Valid(os.k) && upstream in os.k.fds && k.next <= os.k.fds[upstream]
      requires os.k.fds == k.fds[upstream := os.k.fds[upstream]]
      modifies this`sessions
      ensures Valid() && fresh(session) && sessions == old(sessions)[key := session]
      ensures session.client == key && session.View() == Record(target, os.k.fds[upstream], upstream, now, false, true)
    {
      ghost var m := Views();
      session := new UdpSession(key, target, upstream, now, os.k.fds[upstream]);
      sessions := sessions[key := session];
      session.joinable := true;
      ViewsGrow(m, key);
      NewRecordOk(k, os.k, m, key, session.View());
    }

    lemma ViewsGrow(m: Records, key: string)
      requires key in sessions && key !in m && sessions.Keys == m.Keys + {key}
      requires forall c :: c in m ==> sessions[c].View() == m[c]
      ensures Views() == m[key := sessions[key].View()]
    {
    }

    method CloseRejected(upstream: int, ghost k: Kernel)
      requires forall c :: c in sessions ==> sessions[c].client == c
      requires RecordsOk(k, Views()) && Free(k, upstream)
      requires Sockets.Valid(os.k) && upstream in os.k.fds && os.k.fds == k.fds[upstream := os.k.fds[upstream]]
      modifies os
      ensures Valid() && os.k == Close(old(os.k), upstream) && os.k.fds == k.fds
    {
      RejectedIsClosed(k, os.k, upstream);
      os.CloseSocket(upstream);
    }

    /** The second lock region of GetOrCreateUdpSession and what follows it.  If the client has got a
        session in the meantime, the socket just made is closed and that session is used. */
    method Emplace(key: string, target: Endpoint, upstream: int, now: int, ghost k: Kernel)
        returns (session: UdpSession)
      requires forall c :: c in sessions ==> sessions[c].client == c
      requires Sockets.Valid(k) && RecordsOk(k, Views()) && Free(k, upstream)
      requires Sockets.Valid(os.k) && upstream in os.k.fds && k.next <= os.k.fds[upstream]
      requires os.k.fds == k.fds[upstream := os.k.fds[upstream]]
      modifies this`sessions, os
      ensures Valid()
      ensures key in old(sessions) ==>
                && session == old(sessions)[key] && sessions == old(sessions)
                && os.k == Close(old(os.k), upstream) && os.k.fds == k.fds
      ensures key !in old(sessions) ==>
                && fresh(session) && sessions == old(sessions)[key := session] && session.client == key
                && session.View() == Record(target, old(os.k.fds)[upstream], upstream, now, false, true)
                && os.k == old(os.k) && os.log == old(os.log)
    {
      if key in sessions {
        CloseRejected(upstream, k);
        return sessions[key];
      }
      session := Add(key, target, upstream, now, k);
    }

    /** GetOrCreateUdpSession, given the snapshot of the target list.  A client that has a session gets
        that one.  Otherwise a session is made for the first endpoint that yields a socket, and if
        there is none, nothing changes but the log of the operating system. */
    method GetOrCreate(key: string, snapshot: seq<Endpoint>, now: int)
        returns (session: UdpSession?, ghost calls: seq<Call>, ghost tries: seq<seq<Call>>)
      requires Valid()
      modifies this`sessions, os
      ensures Valid() && os.log == old(os.log) + calls
      ensures key in old(sessions) ==>
                session == old(sessions)[key] && sessions == old(sessions) && os.k == old(os.k) && calls == []
      ensures key !in old(sessions) && session == null ==>
                sessions == old(sessions) && os.k.fds == old(os.k.fds)
                && Searched(old(os.k), os.k, calls, snapshot, [], true, INVALID, tries)
      ensures key !in old(sessions) && session != null ==>
                && fresh(session) && sessions == old(sessions)[key := session]
                && session.client == key && session.upstreamSocket != INVALID
                && Searched(old(os.k), os.k, calls, snapshot, [], true, session.upstreamSocket, tries)
                && session.View() ==
                     Record(snapshot[|tries|], os.k.fds[session.upstreamSocket], session.upstreamSocket,
                            now, false, true)
    {
      ghost var k := os.k;
      if key in sessions {
        return sessions[key], [], [];
      }
      if snapshot == [] {
        NothingYet(k, [], [], true);
        NoneFound(k, k, [], [], [], true, []);
        return null, [], [];
      }
      var upstream, target, calls', tries' := CreateUdpSocketForEndpoint(os, snapshot);
      calls, tries := calls', tries';
      if target.None? {
        assert RecordsOk(os.k, Views());
        return null, calls, tries;
      }
      session := Emplace(key, target.value, upstream, now, k);
    }
  }
}
