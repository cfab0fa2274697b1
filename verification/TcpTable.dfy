/**
 The TCP session tables as the accept thread and Stop work on them
 (src/net/forwarder.cpp:340-360, 751-764, 770-797), and the fields of a session
 (src/net/forward_session.cpp:44-95).  What the threads inside a session do meanwhile is the
 subject of RelaySession.
 */
module TcpTable {
  import opened Sockets
  import opened OsCalls

  /** What a session holds at some moment.  `joinable`: its worker was started and not joined. */
  datatype Record = Record(client: int, clientSock: nat, upstream: int, upstreamSock: nat,
                           joinable: bool, stopping: bool, finished: bool)

  /** Closes what a session still holds; the invalid handle is ignored. */
  function CloseEnds(k: Kernel, r: Record): Kernel {
    Close(Close(k, r.client), r.upstream)
  }

  function CloseAllEnds(k: Kernel, rs: seq<Record>): Kernel {
    if rs == [] then k else CloseEnds(CloseAllEnds(k, rs[..|rs| - 1]), rs[|rs| - 1])
  }

  function Stopping(r: Record): Record {
    r.(stopping := true)
  }

  /** A session whose worker has been waited for. */
  function Ended(r: Record): Record {
    r.(client := INVALID, upstream := INVALID, joinable := false, finished := true)
  }

  /** The calls of Stop on a session that was not asked before. */
  function ShutEnds(k: Kernel, r: Record): seq<Call> {
    (if r.client in k.fds && r.client != INVALID then [Shut(k.fds[r.client])] else [])
    + (if r.upstream in k.fds && r.upstream != INVALID then [Shut(k.fds[r.upstream])] else [])
  }

  class ForwardSession {
    ghost const clientSock: nat
    ghost const upstreamSock: nat
    var clientSocket: int
    var upstreamSocket: int
    var joinable: bool
    var stopping: bool
    var finished: bool

    constructor (client: int, upstream: int, ghost clientSock: nat, ghost upstreamSock: nat)
      ensures View() == Record(client, clientSock, upstream, upstreamSock, false, false, false)
    {
      clientSocket, upstreamSocket, this.clientSock, this.upstreamSock := client, upstream, clientSock, upstreamSock;
      joinable, stopping, finished := false, false, false;
    }

    ghost function View(): Record
      reads this
    {
      Record(clientSocket, clientSock, upstreamSocket, upstreamSock, joinable, stopping, finished)
    }

    predicate IsOver()
      reads this
    {
      stopping && finished && !joinable && clientSocket == INVALID && upstreamSocket == INVALID
    }

    method Start()
      modifies this`joinable
      ensures View() == old(View()).(joinable := true)
    {
      joinable := true;
    }

    /** The shutdown calls of Stop close no handle; what they do to the relay is in RelaySession. */
    method Stop(os: Os)
      modifies this`stopping, os`log
      ensures View() == Stopping(old(View()))
      ensures os.log == if old(stopping) then old(os.log) else old(os.log) + ShutEnds(os.k, old(View()))
    {
      if stopping {
        return;
      }
      stopping := true;
      os.ShutdownBoth(clientSocket);
      os.ShutdownBoth(upstreamSocket);
    }

    method CloseSockets(os: Os)
      modifies this`clientSocket, this`upstreamSocket, os
      ensures os.k == CloseEnds(old(os.k), old(View())) && old(os.log) <= os.log
      ensures View() == old(View()).(client := INVALID, upstream := INVALID)
    {
      if clientSocket != INVALID {
        os.CloseSocket(clientSocket);
        clientSocket := INVALID;
      }
      if upstreamSocket != INVALID {
        os.CloseSocket(upstreamSocket);
        upstreamSocket := INVALID;
      }
    }

    /** Join returns when the worker has done the rest of Run: closed the sockets and reported that
        it is finished.  A session that was never started, or joined before, is left alone; the worker
        itself does not wait for its own end but lets go of its thread. */
    method Join(os: Os, byWorker: bool)
      modifies this, os
      ensures View() == if !old(joinable) then old(View())
                        else if byWorker then old(View()).(joinable := false)
                        else Ended(old(View()))
      ensures os.k == if old(joinable) && !byWorker then CloseEnds(old(os.k), old(View())) else old(os.k)
      ensures old(os.log) <= os.log
    {
      if !joinable {
        return;
      }
      if byWorker {
        joinable := false;
        return;
      }
      CloseSockets(os);
      finished := true;
      joinable := false;
    }
  }

  type Records = map<nat, Record>

  function FinishedKeys(m: Records): (r: set<nat>)
    ensures forall id :: id in m ==> (id in r <==> m[id].finished)
  {
    set id | id in m && m[id].finished
  }

  ghost predicate RecordOk(k: Kernel, r: Record) {
    && r.joinable && r.clientSock != r.upstreamSock
    && if r.finished then
         && r.client == INVALID && r.upstream == INVALID
         && r.clientSock < k.next && !IsOpen(k, r.clientSock) && r.upstreamSock < k.next && !IsOpen(k, r.upstreamSock)
       else
         && r.client != INVALID && Names(k, r.client, r.clientSock)
         && r.upstream != INVALID && Names(k, r.upstream, r.upstreamSock)
  }

  predicate Apart(r: Record, q: Record) {
    r.clientSock != q.clientSock && r.clientSock != q.upstreamSock
    && r.upstreamSock != q.clientSock && r.upstreamSock != q.upstreamSock
  }

  ghost predicate RecordsOk(k: Kernel, m: Records) {
    && (forall id :: id in m ==> RecordOk(k, m[id]))
    && (forall id, other :: id in m && other in m && id != other ==> Apart(m[id], m[other]))
  }

  /** The open handles of some sessions. */
  function EndsOf(m: Records, ids: set<nat>): set<int> {
    (set id | id in ids && id in m && !m[id].finished :: m[id].client)
    + (set id | id in ids && id in m && !m[id].finished :: m[id].upstream)
  }

  function HandlesOf(m: Records): set<int> {
    EndsOf(m, m.Keys)
  }

  /** `ids` lists the keys, each once. */
  ghost predicate Enumerates(ids: seq<nat>, keys: set<nat>) {
    && (forall i, j :: 0 <= i < j < |ids| ==> ids[i] != ids[j])
    && (forall id :: id in ids <==> id in keys)
  }

  lemma EnumerateOneMore(ids: seq<nat>, keys: set<nat>, id: nat)
    requires Enumerates(ids, keys) && id !in keys
    ensures Enumerates(ids + [id], keys + {id})
  {
  }

  function At(m: Records, ids: seq<nat>): (rs: seq<Record>)
    requires forall id :: id in ids ==> id in m
    ensures |rs| == |ids| && forall i :: 0 <= i < |ids| ==> rs[i] == m[ids[i]]
  {
    seq(|ids|, i requires 0 <= i < |ids| => m[ids[i]])
  }

  lemma RestIsOk(k: Kernel, m: Records, gone: set<nat>)
    requires RecordsOk(k, m)
    ensures RecordsOk(k, m - gone)
  {
  }

  lemma NewRecordOk(k: Kernel, m: Records, id: nat, r: Record)
    requires Sockets.Valid(k) && RecordsOk(k, m) && RecordOk(k, r) && !r.finished
    requires r.client !in HandlesOf(m) && r.upstream !in HandlesOf(m)
    ensures RecordsOk(k, m[id := r])
  {
    NewRecordApart(k, m, r);
  }

  lemma NewRecordApart(k: Kernel, m: Records, r: Record)
    requires Sockets.Valid(k) && RecordsOk(k, m) && RecordOk(k, r) && !r.finished
    requires r.client !in HandlesOf(m) && r.upstream !in HandlesOf(m)
    ensures forall id :: id in m ==> Apart(m[id], r) && Apart(r, m[id])
  {
    forall id | id in m ensures Apart(m[id], r) {
      if !m[id].finished {
        assert m[id].client in HandlesOf(m) && m[id].upstream in HandlesOf(m);
      }
    }
  }

  class TcpSessions {
    const os: Os
    var sessions: map<nat, ForwardSession>
    var peers: map<nat, string>
    var nextId: nat

    constructor (os: Os)
      requires Sockets.Valid(os.k)
      ensures Valid() && Unwrapped() && this.os == os && sessions == map[] && nextId == 0
    {
      this.os, sessions, peers, nextId := os, map[], map[], 0;
    }

    ghost function Views(): Records
      reads this, sessions.Values
    {
      map id | id in sessions :: sessions[id].View()
    }

    /** The maps have the same keys; every session has been started, and owns two open sockets of
        its own until it has finished. */
    ghost predicate Valid()
      reads this, os, sessions.Values
    {
      Sockets.Valid(os.k) && sessions.Keys == peers.Keys && nextId < U64 && RecordsOk(os.k, Views())
    }

    predicate Unwrapped()
      reads this
    {
      forall id :: id in sessions ==> id <= nextId
    }

    /** Makes a session and starts its worker. */
    method Begin(client: int, upstream: int) returns (session: ForwardSession)
      requires client in os.k.fds && upstream in os.k.fds
      ensures fresh(session)
      ensures session.View() == Record(client, os.k.fds[client], upstream, os.k.fds[upstream], true, false, false)
    {
      session := new ForwardSession(client, upstream, os.k.fds[client], os.k.fds[upstream]);
      session.Start();
    }

    /** The end of AcceptLoop's body: a session for two sockets just made, under the next number.
        As long as the 64-bit counter has not wrapped around, that number is not in use. */
    method Insert(client: int, upstream: int, peer: string) returns (session: ForwardSession)
      requires Valid() && client != upstream && client != INVALID && upstream != INVALID
      requires client in os.k.fds && upstream in os.k.fds
      requires client !in HandlesOf(Views()) && upstream !in HandlesOf(Views())
      modifies this`sessions, this`peers, this`nextId
      ensures Valid()
      ensures nextId == (old(nextId) + 1) % U64 && fresh(session)
      ensures sessions == old(sessions)[nextId := session] && peers == old(peers)[nextId := peer]
      ensures session.View() == Record(client, os.k.fds[client], upstream, os.k.fds[upstream], true, false, false)
      ensures old(Unwrapped()) && old(nextId) + 1 < U64 ==> nextId !in old(sessions) && Unwrapped()
    {
      ghost var m := Views();
      nextId := (nextId + 1) % U64;
      assert Views() == m;
      session := Begin(client, upstream);
      assert Views() == m;
      Store(session, peer);
      assert old(nextId) + 1 < U64 ==> nextId == old(nextId) + 1;
    }

    /** The two insertions under the current number. */
    method Store(session: ForwardSession, peer: string)
      requires Valid() && RecordOk(os.k, session.View()) && !session.finished
      requires session.clientSocket !in HandlesOf(Views()) && session.upstreamSocket !in HandlesOf(Views())
      modifies this`sessions, this`peers
      ensures Valid() && sessions == old(sessions)[nextId := session] && peers == old(peers)[nextId := peer]
    {
      ghost var m := Views();
      sessions := sessions[nextId := session];
      peers := peers[nextId := peer];
      NewRecordOk(os.k, m, nextId, session.View());
      ViewsUpdate(m, nextId);
    }

    lemma ViewsUpdate(m: Records, id: nat)
      requires id in sessions && sessions.Keys == m.Keys + {id}
      requires forall other :: other in m && other != id ==> sessions[other].View() == m[other]
      ensures Views() == m[id := sessions[id].View()]
    {
    }

    /** The sessions and the peers listed are those of the keys `ids`. */
    static ghost predicate Taken(whole: map<nat, ForwardSession>, peers: map<nat, string>, ids: seq<nat>,
                                 list: seq<ForwardSession>, labels: seq<string>) {
      && |list| == |labels| == |ids|
      && (forall i :: 0 <= i < |ids| ==> ids[i] in whole && list[i] == whole[ids[i]])
      && (forall i :: 0 <= i < |ids| ==> labels[i] == if ids[i] in peers then peers[ids[i]] else "unknown")
    }

    static lemma TakenOneMore(whole: map<nat, ForwardSession>, peers: map<nat, string>, ids: seq<nat>,
                              list: seq<ForwardSession>, labels: seq<string>, id: nat)
      requires Taken(whole, peers, ids, list, labels) && id in whole
      ensures Taken(whole, peers, ids + [id], list + [whole[id]],
                    labels + [if id in peers then peers[id] else "unknown"])
    {
    }

    /** The part of CleanupFinishedSessions under the lock: erasing while iterating.  Both maps lose
        exactly the finished sessions, and the two lists name them with their peers. */
    method TakeFinished() returns (list: seq<ForwardSession>, labels: seq<string>, ghost ids: seq<nat>)
      modifies this`sessions, this`peers
      ensures sessions == old(sessions) - FinishedKeys(old(Views()))
      ensures peers == old(peers) - FinishedKeys(old(Views()))
      ensures Enumerates(ids, FinishedKeys(old(Views()))) && Taken(old(sessions), old(peers), ids, list, labels)
    {
      ghost var whole, allPeers, m := sessions, peers, Views();
      ghost var done: set<nat> := {};
      list, labels, ids := [], [], [];
      var todo := sessions.Keys;
      while todo != {}
        invariant todo <= whole.Keys && done <= whole.Keys && done !! todo
        invariant forall id :: id in whole && id !in todo ==> (id in done <==> m[id].finished)
        invariant sessions == whole - done && peers == allPeers - done
        invariant Enumerates(ids, done) && Taken(whole, allPeers, ids, list, labels)
      {
        var id :| id in todo;
        todo := todo - {id};
        if sessions[id].finished {
          EnumerateOneMore(ids, done, id);
          TakenOneMore(whole, allPeers, ids, list, labels, id);
          assert (allPeers - done) - {id} == allPeers - (done + {id});
          assert (whole - done) - {id} == whole - (done + {id});
          list := list + [sessions[id]];
          labels := labels + [if id in peers then peers[id] else "unknown"];
          ids, done := ids + [id], done + {id};
          peers := peers - {id};
          sessions := sessions - {id};
        }
      }
      assert done == FinishedKeys(m);
    }

    /** Waits for the listed sessions, one after the other. */
    method JoinAll(list: seq<ForwardSession>, ghost rs: seq<Record>)
      requires forall i, j :: 0 <= i < j < |list| ==> list[i] != list[j]
      requires |rs| == |list| && forall i :: 0 <= i < |rs| ==> list[i].View() == rs[i]
      requires forall i :: 0 <= i < |rs| ==> rs[i].joinable
      modifies os, list
      ensures os.k == CloseAllEnds(old(os.k), rs) && old(os.log) <= os.log
      ensures forall i :: 0 <= i < |rs| ==> list[i].View() == Ended(rs[i])
    {
      for n := 0 to |list|
        invariant os.k == CloseAllEnds(old(os.k), rs[..n]) && old(os.log) <= os.log
        invariant forall i :: 0 <= i < |rs| ==> list[i].View() == if i < n then Ended(rs[i]) else rs[i]
      {
        assert list[n].View() == rs[n];
        list[n].Join(os, false);
        assert rs[..n + 1][..n] == rs[..n];
      }
      assert rs[..|list|] == rs;
    }

    static lemma DifferentSessions(whole: map<nat, ForwardSession>, m: Records, ids: seq<nat>,
            list: seq<ForwardSession>, k: Kernel)
      requires Holds(whole, m) && RecordsOk(k, m) && Picked(whole, ids, list)
      ensures |At(m, ids)| == |list|
      ensures forall i :: 0 <= i < |ids| ==> list[i].View() == At(m, ids)[i] && RecordOk(k, At(m, ids)[i])
      ensures forall i, j :: 0 <= i < j < |list| ==> list[i] != list[j]
    {
      forall i, j | 0 <= i < j < |list| ensures list[i] != list[j] {
        assert Apart(m[ids[i]], m[ids[j]]);
      }
    }

    static ghost predicate Holds(whole: map<nat, ForwardSession>, m: Records)
      reads whole.Values
    {
      m.Keys == whole.Keys && forall id :: id in whole ==> whole[id].View() == m[id]
    }

    static ghost predicate Picked(whole: map<nat, ForwardSession>, ids: seq<nat>, list: seq<ForwardSession>) {
      && |list| == |ids| && (forall i :: 0 <= i < |ids| ==> ids[i] in whole && list[i] == whole[ids[i]])
      && (forall i, j :: 0 <= i < j < |ids| ==> ids[i] != ids[j])
    }

    /** Waits for some of the sessions a table held. */
    method JoinPicked(list: seq<ForwardSession>, ghost whole: map<nat, ForwardSession>, ghost m: Records,
            ghost ids: seq<nat>)
      requires Holds(whole, m) && RecordsOk(os.k, m) && Picked(whole, ids, list)
      modifies os, list
      ensures os.k == CloseAllEnds(old(os.k), At(m, ids)) && old(os.log) <= os.log
      ensures forall id :: id in whole ==> whole[id].View() == if id in ids then Ended(m[id]) else m[id]
    {
      DifferentSessions(whole, m, ids, list, os.k);
      JoinAll(list, At(m, ids));
      forall id | id in whole ensures whole[id].View() == if id in ids then Ended(m[id]) else m[id] {
        if id in ids {
          var i :| 0 <= i < |ids| && ids[i] == id;
          assert list[i] == whole[id];
        } else {
          forall i | 0 <= i < |list| ensures list[i] != whole[id] {
            assert ids[i] in ids && Apart(m[ids[i]], m[id]);
          }
        }
      }
    }

    /** CleanupFinishedSessions: exactly the finished sessions leave both maps and are joined; no
        socket is touched, and all other sessions are left alone. */
    method CleanupFinished() returns (labels: seq<string>, ghost ids: seq<nat>)
      requires Valid()
      modifies this`sessions, this`peers, os, sessions.Values
      ensures Valid() && os.k == old(os.k)
      ensures Views() == old(Views()) - FinishedKeys(old(Views()))
      ensures sessions == old(sessions) - FinishedKeys(old(Views()))
      ensures Enumerates(ids, FinishedKeys(old(Views()))) && Labels(old(peers), ids, labels)
      ensures forall id :: id in ids ==> id in old(sessions) && !old(sessions)[id].joinable
    {
      ghost var m, whole, named := Views(), sessions, peers;
      var list;
      list, labels, ids := TakeFinished();
      LabelsAreKnown(named, m, ids, labels);
      assert forall z :: z in list ==> z in whole.Values;
      JoinReaped(list, whole, m, ids);
    }

    method Collect() returns (list: seq<ForwardSession>, ghost ids: seq<nat>)
      ensures Picked(sessions, ids, list) && Enumerates(ids, sessions.Keys)
    {
      list, ids := [], [];
      var todo := sessions.Keys;
      while todo != {}
        invariant todo <= sessions.Keys && Enumerates(ids, sessions.Keys - todo)
        invariant Picked(sessions, ids, list)
      {
        var id :| id in todo;
        EnumerateOneMore(ids, sessions.Keys - todo, id);
        assert sessions.Keys - todo + {id} == sessions.Keys - (todo - {id});
        todo := todo - {id};
        list, ids := list + [sessions[id]], ids + [id];
      }
    }

    method StopListed(list: seq<ForwardSession>, ghost rs: seq<Record>) returns (ghost shuts: seq<Call>)
      requires forall i, j :: 0 <= i < j < |list| ==> list[i] != list[j]
      requires |rs| == |list| && forall i :: 0 <= i < |rs| ==> list[i].View() == rs[i] && RecordOk(os.k, rs[i])
      modifies list, os`log
      ensures forall i :: 0 <= i < |rs| ==> list[i].View() == Stopping(rs[i])
      ensures os.log == old(os.log) + shuts && ShutUpTo(rs, |rs|, shuts)
    {
      shuts := [];
      for n := 0 to |list|
        invariant forall i :: 0 <= i < |rs| ==> list[i].View() == if i < n then Stopping(rs[i]) else rs[i]
        invariant os.log == old(os.log) + shuts && ShutUpTo(rs, n, shuts)
      {
        ghost var more := if rs[n].stopping then [] else ShutEnds(os.k, rs[n]);
        ShutOneMore(os.k, rs, n, shuts, more);
        assert list[n].View() == rs[n];
        list[n].Stop(os);
        shuts := shuts + more;
      }
    }

    method StopAll(list: seq<ForwardSession>, ghost whole: map<nat, ForwardSession>, ghost m: Records,
            ghost ids: seq<nat>) returns (ghost shuts: seq<Call>)
      requires Holds(whole, m) && RecordsOk(os.k, m) && Picked(whole, ids, list) && Enumerates(ids, whole.Keys)
      modifies list, os`log
      ensures Holds(whole, AllAsked(m)) && os.log == old(os.log) + shuts && AllShut(m, shuts)
    {
      ghost var rs := At(m, ids);
      DifferentSessions(whole, m, ids, list, os.k);
      shuts := StopListed(list, rs);
      ShutAreAll(m, ids, rs, shuts);
      forall id | id in whole ensures whole[id].View() == AllAsked(m)[id] {
        assert id in ids;
        var i :| 0 <= i < |ids| && ids[i] == id;
        assert list[i] == whole[id] && rs[i] == m[id];
      }
    }

    /** All are asked to stop, then all are waited for. */
    method StopAndJoin(list: seq<ForwardSession>, ghost whole: map<nat, ForwardSession>, ghost m: Records,
            ghost ids: seq<nat>) returns (ghost shuts: seq<Call>)
      requires Sockets.Valid(os.k) && Holds(whole, m) && RecordsOk(os.k, m) && Picked(whole, ids, list)
      requires Enumerates(ids, whole.Keys)
      modifies os, list
      ensures AllClosed(old(os.k), os.k, m) && Holds(whole, AllEnded(m))
      ensures old(os.log) + shuts <= os.log && AllShut(m, shuts)
    {
      ghost var k := os.k;
      shuts := StopAll(list, whole, m, ids);
      AllEndsClosed(k, m, ids);
      JoinPicked(list, whole, AllAsked(m), ids);
    }

    method EndSessions() returns (ghost shuts: seq<Call>)
      requires Valid()
      modifies os, sessions.Values
      ensures AllClosed(old(os.k), os.k, old(Views()))
      ensures old(os.log) + shuts <= os.log && AllShut(old(Views()), shuts)
      ensures forall z :: z in sessions.Values ==> z.IsOver()
    {
      ghost var m, whole := Views(), sessions;
      var list, ids := Collect();
      assert forall z :: z in list ==> z in whole.Values;
      shuts := StopAndJoin(list, whole, m, ids);
      forall z | z in sessions.Values ensures z.IsOver() {
        var id :| id in sessions && sessions[id] == z;
        assert z.View() == AllEnded(m)[id];
      }
    }

    /** The part of Stop that ends the sessions, then clears the tables.  Every session has been asked
        to stop, has finished and was joined; every socket of the table is closed, and no other.  Before the first
        session is waited for, all that were not asked before have been shut down on both sides. */
    method StopSessions() returns (ghost shuts: seq<Call>)
      requires Valid()
      modifies this`sessions, this`peers, os, sessions.Values
      ensures Valid() && sessions == map[] && peers == map[]
      ensures AllClosed(old(os.k), os.k, old(Views()))
      ensures forall z :: z in old(sessions.Values) ==> z.IsOver()
      ensures old(os.log) + shuts <= os.log && AllShut(old(Views()), shuts)
    {
      shuts := EndSessions();
      sessions, peers := map[], map[];
    }

    static predicate Labels(peers: map<nat, string>, ids: seq<nat>, labels: seq<string>) {
      |labels| == |ids| && forall i :: 0 <= i < |ids| ==> ids[i] in peers && labels[i] == peers[ids[i]]
    }

    static lemma LabelsAreKnown(peers: map<nat, string>, m: Records, ids: seq<nat>, labels: seq<string>)
      requires peers.Keys == m.Keys && Enumerates(ids, FinishedKeys(m)) && |labels| == |ids|
      requires forall i :: 0 <= i < |ids| ==> labels[i] == if ids[i] in peers then peers[ids[i]] else "unknown"
      ensures Labels(peers, ids, labels)
    {
      forall i | 0 <= i < |ids| ensures ids[i] in peers {
        assert ids[i] in ids;
      }
    }

    /** The part of CleanupFinishedSessions outside the lock. */
    method JoinReaped(list: seq<ForwardSession>, ghost whole: map<nat, ForwardSession>, ghost m: Records,
            ghost ids: seq<nat>)
      requires Holds(whole, m) && RecordsOk(os.k, m) && Picked(whole, ids, list)
      requires Enumerates(ids, FinishedKeys(m)) && sessions == whole - FinishedKeys(m)
      modifies os, list
      ensures os.k == old(os.k) && Views() == m - FinishedKeys(m) && RecordsOk(os.k, Views())
      ensures forall id :: id in ids ==> id in whole && !whole[id].joinable
    {
      ghost var k := os.k;
      JoinPicked(list, whole, m, ids);
      NothingToClose(k, m, ids);
      ViewsOfRest(whole, m, ids, FinishedKeys(m));
      RestIsOk(k, m, FinishedKeys(m));
    }

    lemma ViewsOfRest(whole: map<nat, ForwardSession>, m: Records, ids: seq<nat>, gone: set<nat>)
      requires sessions == whole - gone && m.Keys == whole.Keys && forall id :: id in ids <==> id in gone
      requires forall id :: id in whole ==> whole[id].View() == if id in ids then Ended(m[id]) else m[id]
      ensures Views() == m - gone
    {
    }
  }

  /** Nothing but shutdown calls, among them one for each end of every session not asked to stop before. */
  predicate AllShut(m: Records, calls: seq<Call>) {
    && (forall i :: 0 <= i < |calls| ==> calls[i].Shut?)
    && (forall id :: id in m && !m[id].stopping && !m[id].finished ==>
          Shut(m[id].clientSock) in calls && Shut(m[id].upstreamSock) in calls)
  }

  predicate ShutUpTo(rs: seq<Record>, n: nat, calls: seq<Call>)
    requires n <= |rs|
  {
    && (forall i :: 0 <= i < |calls| ==> calls[i].Shut?)
    && (forall i :: 0 <= i < n && !rs[i].stopping && !rs[i].finished ==>
          Shut(rs[i].clientSock) in calls && Shut(rs[i].upstreamSock) in calls)
  }

  lemma ShutOneMore(k: Kernel, rs: seq<Record>, n: nat, calls: seq<Call>, more: seq<Call>)
    requires n < |rs| && ShutUpTo(rs, n, calls) && RecordOk(k, rs[n])
    requires more == if rs[n].stopping then [] else ShutEnds(k, rs[n])
    ensures ShutUpTo(rs, n + 1, calls + more)
  {
    if !rs[n].stopping && !rs[n].finished {
      assert more == [Shut(rs[n].clientSock), Shut(rs[n].upstreamSock)];
      assert more[0] in more && more[1] in more;
    }
  }

  lemma ShutAreAll(m: Records, ids: seq<nat>, rs: seq<Record>, calls: seq<Call>)
    requires |rs| == |ids| && (forall i :: 0 <= i < |ids| ==> ids[i] in m && rs[i] == m[ids[i]])
    requires (forall id :: id in m ==> id in ids) && ShutUpTo(rs, |rs|, calls)
    ensures AllShut(m, calls)
  {
    forall id | id in m && !m[id].stopping && !m[id].finished
      ensures Shut(m[id].clientSock) in calls && Shut(m[id].upstreamSock) in calls
    {
      var i :| 0 <= i < |ids| && ids[i] == id;
      assert rs[i] == m[id];
    }
  }

  function AllAsked(m: Records): Records {
    map id | id in m :: Stopping(m[id])
  }

  lemma {:induction false} AskingChangesNoEnd(k: Kernel, m: Records, ids: seq<nat>)
    requires RecordsOk(k, m) && forall id :: id in ids ==> id in m
    ensures RecordsOk(k, AllAsked(m)) && CloseAllEnds(k, At(AllAsked(m), ids)) == CloseAllEnds(k, At(m, ids))
  {
    if ids != [] {
      var most := ids[..|ids| - 1];
      AskingChangesNoEnd(k, m, most);
      assert At(m, ids)[..|ids| - 1] == At(m, most);
      assert At(AllAsked(m), ids)[..|ids| - 1] == At(AllAsked(m), most);
      assert ids[|ids| - 1] in ids;
    }
  }

  lemma AllEndsClosed(k: Kernel, m: Records, ids: seq<nat>)
    requires Sockets.Valid(k) && RecordsOk(k, m) && Enumerates(ids, m.Keys)
    ensures RecordsOk(k, AllAsked(m)) && AllClosed(k, CloseAllEnds(k, At(AllAsked(m), ids)), m)
  {
    AskingChangesNoEnd(k, m, ids);
    CloseAllEndsKeepsValid(k, m, ids);
    TheseAreAll(k, CloseAllEnds(k, At(m, ids)), m, ids);
  }

  /** Closing what one session holds. */
  lemma CloseEndsKeepsValid(k: Kernel, r: Record)
    requires Sockets.Valid(k) && RecordOk(k, r)
    ensures var k' := CloseEnds(k, r);
      && Sockets.Valid(k') && k'.next == k.next
      && k'.fds == (if r.finished then k.fds else k.fds - {r.client, r.upstream})
      && !IsOpen(k', r.clientSock) && !IsOpen(k', r.upstreamSock)
      && forall x :: x != r.clientSock && x != r.upstreamSock ==> (IsOpen(k', x) <==> IsOpen(k, x))
  {
    if !r.finished {
      CloseKeepsValid(k, r.client);
      CloseKeepsValid(Close(k, r.client), r.upstream);
    }
  }

  /** Closing another session's ends does no harm. */
  lemma OtherRecordOk(k: Kernel, k': Kernel, r: Record, q: Record)
    requires Sockets.Valid(k) && RecordOk(k, r) && RecordOk(k, q) && Apart(r, q) && k' == CloseEnds(k, r)
    ensures RecordOk(k', q)
  {
    CloseEndsKeepsValid(k, r);
  }

  /** The ends of the listed sessions are closed, and nothing else. */
  ghost predicate ClosedThese(k: Kernel, k': Kernel, m: Records, ids: seq<nat>)
    requires forall id :: id in ids ==> id in m
  {
    && Sockets.Valid(k') && k'.next == k.next && k'.fds == k.fds - EndsOf(m, set id | id in ids)
    && (forall id :: id in ids ==> !IsOpen(k', m[id].clientSock) && !IsOpen(k', m[id].upstreamSock))
    && (forall id :: id in m && id !in ids ==> RecordOk(k', m[id]))
  }

  ghost predicate AllClosed(k: Kernel, k': Kernel, m: Records) {
    && Sockets.Valid(k') && k'.next == k.next && k'.fds == k.fds - HandlesOf(m)
    && forall id :: id in m ==> !IsOpen(k', m[id].clientSock) && !IsOpen(k', m[id].upstreamSock)
  }

  lemma TheseAreAll(k: Kernel, k': Kernel, m: Records, ids: seq<nat>)
    requires Enumerates(ids, m.Keys) && ClosedThese(k, k', m, ids)
    ensures AllClosed(k, k', m)
  {
    assert (set id | id in ids) == m.Keys;
  }

  function AllEnded(m: Records): Records {
    map id | id in m :: Ended(Stopping(m[id]))
  }

  lemma OneMoreHandles(k: Kernel, k': Kernel, m: Records, most: seq<nat>, last: nat)
    requires last in m && Sockets.Valid(k') && RecordOk(k', m[last])
    requires k'.fds == k.fds - EndsOf(m, set id | id in most)
    ensures CloseEnds(k', m[last]).fds == k.fds - EndsOf(m, set id | id in most + [last])
  {
    CloseEndsKeepsValid(k', m[last]);
    EndsOneMore(m, most, last);
  }

  lemma CloseOneMore(k: Kernel, k': Kernel, m: Records, most: seq<nat>, last: nat)
    requires (forall id :: id in most ==> id in m) && last in m && last !in most
    requires RecordsOk(k, m) && ClosedThese(k, k', m, most)
    ensures ClosedThese(k, CloseEnds(k', m[last]), m, most + [last])
  {
    var k2 := CloseEnds(k', m[last]);
    CloseEndsKeepsValid(k', m[last]);
    OneMoreHandles(k, k', m, most, last);
    forall id | id in m && id !in most + [last] ensures RecordOk(k2, m[id]) {
      OtherRecordOk(k', k2, m[last], m[id]);
    }
    forall id | id in most + [last] ensures !IsOpen(k2, m[id].clientSock) && !IsOpen(k2, m[id].upstreamSock) {
      assert id == last || id in most;
    }
  }

  lemma LastIsClosedLast(k: Kernel, m: Records, most: seq<nat>, last: nat)
    requires (forall id :: id in most ==> id in m) && last in m
    ensures CloseAllEnds(k, At(m, most + [last])) == CloseEnds(CloseAllEnds(k, At(m, most)), m[last])
  {
    assert At(m, most + [last])[..|most|] == At(m, most);
  }

  /** Closing the ends of different sessions closes these and no others, whatever the order. */
  lemma {:induction false} CloseAllEndsKeepsValid(k: Kernel, m: Records, ids: seq<nat>)
    requires Sockets.Valid(k) && RecordsOk(k, m) && forall id :: id in ids ==> id in m
    requires forall i, j :: 0 <= i < j < |ids| ==> ids[i] != ids[j]
    ensures ClosedThese(k, CloseAllEnds(k, At(m, ids)), m, ids)
  {
    if ids != [] {
      var most, last := ids[..|ids| - 1], ids[|ids| - 1];
      assert ids == most + [last] && last in ids;
      CloseAllEndsKeepsValid(k, m, most);
      LastIsClosedLast(k, m, most, last);
      CloseOneMore(k, CloseAllEnds(k, At(m, most)), m, most, last);
    } else {
      assert k.fds - EndsOf(m, {}) == k.fds;
    }
  }

  lemma EndsOneMore(m: Records, most: seq<nat>, last: nat)
    requires last in m
    ensures EndsOf(m, set id | id in most + [last]) ==
            EndsOf(m, set id | id in most) + if m[last].finished then {} else {m[last].client, m[last].upstream}
  {
  }

  lemma {:induction false} NothingToClose(k: Kernel, m: Records, ids: seq<nat>)
    requires RecordsOk(k, m) && forall id :: id in ids ==> id in m && m[id].finished
    ensures CloseAllEnds(k, At(m, ids)) == k
  {
    if ids != [] {
      var most := ids[..|ids| - 1];
      NothingToClose(k, m, most);
      assert At(m, ids)[..|ids| - 1] == At(m, most);
      assert ids[|ids| - 1] in ids;
    }
  }
}
