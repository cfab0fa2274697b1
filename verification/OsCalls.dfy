/**
 The loops that try one endpoint after the other: listening candidates of Start
 (src/net/forwarder.cpp:247-319), ConnectToEndpoints (99-133) and CreateUdpSocketForEndpoint
 (135-172).  The operating system answers every call as it likes; its log records the calls.
 */
module OsCalls {
  import opened Sockets
  import opened Endpoints
  import Dialling
  import UdpMachine

  datatype Request = Connect | ReuseAddress | Bind | Listen

  /** Calls and their answers; `x` is the kernel socket a call was about. */
  datatype Call =
    | NoSocket(e: Endpoint)
    | Made(e: Endpoint, x: nat)
    | Asked(r: Request, x: nat, ok: bool)
    | Shut(x: nat)
    | Closed(x: nat)

  class Os {
    var k: Kernel
    ghost var log: seq<Call>

    constructor ()
      ensures k == FRESH && log == []
    {
      k, log := FRESH, [];
    }

    method Socket(e: Endpoint) returns (h: int)
      modifies this
      ensures h == INVALID ==> k == old(k) && log == old(log) + [NoSocket(e)]
      ensures h != INVALID ==> Free(old(k), h) && k == Open(old(k), h) && log == old(log) + [Made(e, old(k).next)]
    {
      h := *;
      if Free(k, h) {
        log := log + [Made(e, k.next)];
        k := Open(k, h);
      } else {
        log := log + [NoSocket(e)];
        h := INVALID;
      }
    }

    method Ask(r: Request, h: int) returns (ok: bool)
      requires h in k.fds
      modifies this`log
      ensures log == old(log) + [Asked(r, k.fds[h], ok)]
    {
      ok := *;
      log := log + [Asked(r, k.fds[h], ok)];
    }

    /** Both halves; the invalid handle is ignored. */
    method ShutdownBoth(h: int)
      modifies this`log
      ensures log == if h in k.fds && h != INVALID then old(log) + [Shut(k.fds[h])] else old(log)
    {
      if h in k.fds && h != INVALID {
        log := log + [Shut(k.fds[h])];
      }
    }

    method CloseSocket(h: int)
      modifies this
      ensures k == Close(old(k), h)
      ensures log == if h in old(k.fds) && h != INVALID then old(log) + [Closed(old(k.fds)[h])] else old(log)
    {
      if h in k.fds && h != INVALID {
        log := log + [Closed(k.fds[h])];
      }
      k := Close(k, h);
    }
  }

  function Flatten(parts: seq<seq<Call>>): seq<Call> {
    if parts == [] then [] else Flatten(parts[..|parts| - 1]) + parts[|parts| - 1]
  }

  /** What is asked of a candidate, in this order, until one request is refused. */
  function ListenRequests(tcp: bool): seq<Request> {
    if tcp then [ReuseAddress, Bind, Listen] else [ReuseAddress, Bind]
  }

  /** The calls made for an endpoint that did not work out: no socket, or one that was refused
      something and closed at once. */
  predicate Failed(e: Endpoint, requests: seq<Request>, calls: seq<Call>) {
    || calls == [NoSocket(e)]
    || (&& 3 <= |calls| <= |requests| + 2
        && calls[0].Made? && calls[0].e == e && calls[|calls| - 1] == Closed(calls[0].x)
        && forall i :: 1 <= i < |calls| - 1 ==> calls[i] == Asked(requests[i - 1], calls[0].x, i < |calls| - 2))
  }

  predicate Worked(e: Endpoint, requests: seq<Request>, x: nat, calls: seq<Call>) {
    && |calls| == |requests| + 1 && calls[0] == Made(e, x)
    && forall i :: 1 <= i < |calls| ==> calls[i] == Asked(requests[i - 1], x, true)
  }

  predicate Fits(e: Endpoint) {
    e.addressLength <= STORAGE
  }

  /** The endpoints were tried in order, `tries` are the calls made for those that failed, and the
      search ended with the first one that worked, or with none.  All other sockets it made are
      closed again.  `skip`: endpoints whose address does not fit are passed over. */
  ghost predicate Searched(k0: Kernel, k: Kernel, calls: seq<Call>, endpoints: seq<Endpoint>, requests: seq<Request>,
                           skip: bool, h: int, tries: seq<seq<Call>>) {
    && Valid(k) && k0.next <= k.next && |tries| <= |endpoints|
    && (forall i :: 0 <= i < |tries| ==>
          if skip && !Fits(endpoints[i]) then tries[i] == [] else Failed(endpoints[i], requests, tries[i]))
    && if h == INVALID then |tries| == |endpoints| && calls == Flatten(tries) && k.fds == k0.fds
       else
         && |tries| < |endpoints| && (skip ==> Fits(endpoints[|tries|]))
         && Free(k0, h) && h in k.fds && k0.next <= k.fds[h] && k.fds == k0.fds[h := k.fds[h]]
         && Flatten(tries) <= calls && Worked(endpoints[|tries|], requests, k.fds[h], calls[|Flatten(tries)|..])
  }

  /** State of a search between two endpoints. */
  ghost predicate Searching(k0: Kernel, k: Kernel, calls: seq<Call>, endpoints: seq<Endpoint>, requests: seq<Request>,
                            skip: bool, tries: seq<seq<Call>>) {
    && Valid(k) && k0.next <= k.next && |tries| <= |endpoints| && k.fds == k0.fds
    && (forall i :: 0 <= i < |tries| ==>
          if skip && !Fits(endpoints[i]) then tries[i] == [] else Failed(endpoints[i], requests, tries[i]))
    && calls == Flatten(tries)
  }

  lemma NothingYet(k: Kernel, endpoints: seq<Endpoint>, requests: seq<Request>, skip: bool)
    requires Valid(k)
    ensures Searching(k, k, [], endpoints, requests, skip, [])
  {
  }

  lemma OneFailed(k0: Kernel, k: Kernel, calls: seq<Call>, endpoints: seq<Endpoint>, requests: seq<Request>,
                  skip: bool, tries: seq<seq<Call>>, k': Kernel, more: seq<Call>)
    requires Searching(k0, k, calls, endpoints, requests, skip, tries) && |tries| < |endpoints|
    requires Valid(k') && k.next <= k'.next && k'.fds == k.fds
    requires if skip && !Fits(endpoints[|tries|]) then more == [] else Failed(endpoints[|tries|], requests, more)
    ensures Searching(k0, k', calls + more, endpoints, requests, skip, tries + [more])
  {
    assert (tries + [more])[..|tries|] == tries;
  }

  lemma Found(k0: Kernel, k: Kernel, calls: seq<Call>, endpoints: seq<Endpoint>, requests: seq<Request>,
              skip: bool, tries: seq<seq<Call>>, h: int, last: seq<Call>)
    requires Searching(k0, k, calls, endpoints, requests, skip, tries) && |tries| < |endpoints|
    requires Free(k, h) && (skip ==> Fits(endpoints[|tries|])) && Worked(endpoints[|tries|], requests, k.next, last)
    ensures Searched(k0, Open(k, h), calls + last, endpoints, requests, skip, h, tries)
  {
    OpenKeepsValid(k, h);
    assert (calls + last)[|calls|..] == last;
  }

  lemma NoneFound(k0: Kernel, k: Kernel, calls: seq<Call>, endpoints: seq<Endpoint>, requests: seq<Request>,
                  skip: bool, tries: seq<seq<Call>>)
    requires Searching(k0, k, calls, endpoints, requests, skip, tries) && |tries| == |endpoints|
    ensures Searched(k0, k, calls, endpoints, requests, skip, INVALID, tries)
  {
  }

  /** Making a socket and closing it again leaves the open handles as they were. */
  lemma MadeAndClosed(k: Kernel, h: int)
    requires Valid(k) && Free(k, h)
    ensures Valid(Close(Open(k, h), h)) && Close(Open(k, h), h).fds == k.fds
    ensures Close(Open(k, h), h).next == k.next + 1
  {
    OpenKeepsValid(k, h);
    CloseKeepsValid(Open(k, h), h);
  }

  method ConnectToEndpoints(os: Os, endpoints: seq<Endpoint>)
      returns (socket: int, ghost calls: seq<Call>, ghost tries: seq<seq<Call>>)
    requires Valid(os.k)
    modifies os
    ensures os.log == old(os.log) + calls
    ensures Searched(old(os.k), os.k, calls, endpoints, [Connect], false, socket, tries)
  {
    ghost var k0 := os.k;
    calls, tries := [], [];
    NothingYet(k0, endpoints, [Connect], false);
    for i := 0 to |endpoints|
      invariant |tries| == i && os.log == old(os.log) + calls
      invariant Searching(k0, os.k, calls, endpoints, [Connect], false, tries)
    {
      ghost var k, more := os.k, [NoSocket(endpoints[i])];
      var candidate := os.Socket(endpoints[i]);
      if candidate != INVALID {
        var ok := os.Ask(Connect, candidate);
        more := [Made(endpoints[i], k.next), Asked(Connect, k.next, ok)];
        if ok {
          Found(k0, k, calls, endpoints, [Connect], false, tries, candidate, more);
          calls := calls + more;
          return candidate, calls, tries;
        }
        os.CloseSocket(candidate);
        MadeAndClosed(k, candidate);
        more := [Made(endpoints[i], k.next), Asked(Connect, k.next, false), Closed(k.next)];
      }
      assert Failed(endpoints[i], [Connect], more);
      OneFailed(k0, k, calls, endpoints, [Connect], false, tries, os.k, more);
      calls, tries := calls + more, tries + [more];
    }
    NoneFound(k0, os.k, calls, endpoints, [Connect], false, tries);
    socket := INVALID;
  }

  method CreateUdpSocketForEndpoint(os: Os, endpoints: seq<Endpoint>)
      returns (socket: int, target: Option<Endpoint>, ghost calls: seq<Call>, ghost tries: seq<seq<Call>>)
    requires Valid(os.k)
    modifies os
    ensures os.log == old(os.log) + calls
    ensures Searched(old(os.k), os.k, calls, endpoints, [], true, socket, tries)
    ensures target == if socket == INVALID then None else Some(endpoints[|tries|])
  {
    ghost var k0 := os.k;
    calls, tries := [], [];
    NothingYet(k0, endpoints, [], true);
    for i := 0 to |endpoints|
      invariant |tries| == i && os.log == old(os.log) + calls
      invariant Searching(k0, os.k, calls, endpoints, [], true, tries)
    {
      ghost var k, more := os.k, [];
      if endpoints[i].addressLength <= STORAGE {
        var candidate := os.Socket(endpoints[i]);
        if candidate != INVALID {
          more := [Made(endpoints[i], k.next)];
          Found(k0, k, calls, endpoints, [], true, tries, candidate, more);
          calls := calls + more;
          return candidate, Some(endpoints[i]), calls, tries;
        }
        more := [NoSocket(endpoints[i])];
      }
      OneFailed(k0, k, calls, endpoints, [], true, tries, os.k, more);
      calls, tries := calls + more, tries + [more];
    }
    NoneFound(k0, os.k, calls, endpoints, [], true, tries);
    socket, target := INVALID, None;
  }

  /** Requests about socket `x`, granted up to the last, which is granted or refused. */
  predicate Answered(requests: seq<Request>, x: nat, ok: bool, asked: seq<Call>) {
    && 1 <= |asked| <= |requests| && (ok ==> |asked| == |requests|)
    && forall i :: 0 <= i < |asked| ==> asked[i] == Asked(requests[i], x, ok || i < |asked| - 1)
  }

  lemma AnsweredWorks(e: Endpoint, requests: seq<Request>, x: nat, ok: bool, asked: seq<Call>)
    requires Answered(requests, x, ok, asked)
    ensures ok ==> Worked(e, requests, x, [Made(e, x)] + asked)
    ensures !ok ==> Failed(e, requests, [Made(e, x)] + asked + [Closed(x)])
  {
  }

  /** What Start asks of a candidate before it listens on it. */
  method Prepare(os: Os, candidate: int, tcp: bool) returns (ok: bool, ghost asked: seq<Call>)
    requires candidate in os.k.fds
    modifies os`log
    ensures os.log == old(os.log) + asked && Answered(ListenRequests(tcp), os.k.fds[candidate], ok, asked)
  {
    ghost var x := os.k.fds[candidate];
    ok := os.Ask(ReuseAddress, candidate);
    asked := [Asked(ReuseAddress, x, ok)];
    if !ok { return; }
    ok := os.Ask(Bind, candidate);
    asked := asked + [Asked(Bind, x, ok)];
    if !ok || !tcp { return; }
    ok := os.Ask(Listen, candidate);
    asked := asked + [Asked(Listen, x, ok)];
  }

  /** The calls for the socket Start listens on: its address may be reused, it is bound, whatever the
      protocol, and only for TCP it then listens. */
  function ListenerCalls(e: Endpoint, tcp: bool, x: nat): seq<Call> {
    [Made(e, x), Asked(ReuseAddress, x, true), Asked(Bind, x, true)] + if tcp then [Asked(Listen, x, true)] else []
  }

  /** The calls for a candidate that was refused one of these; it is closed at once. */
  predicate Rejected(e: Endpoint, tcp: bool, calls: seq<Call>) {
    || calls == [NoSocket(e)]
    || (&& |calls| > 0 && calls[0].Made?
        && var x := calls[0].x;
           || calls == [Made(e, x), Asked(ReuseAddress, x, false), Closed(x)]
           || calls == [Made(e, x), Asked(ReuseAddress, x, true), Asked(Bind, x, false), Closed(x)]
           || (tcp && calls == [Made(e, x), Asked(ReuseAddress, x, true), Asked(Bind, x, true),
                                Asked(Listen, x, false), Closed(x)]))
  }

  lemma WorkedListens(e: Endpoint, tcp: bool, x: nat, calls: seq<Call>)
    requires Worked(e, ListenRequests(tcp), x, calls)
    ensures calls == ListenerCalls(e, tcp, x)
  {
  }

  lemma FailedIsRejected(e: Endpoint, tcp: bool, calls: seq<Call>)
    requires Failed(e, ListenRequests(tcp), calls)
    ensures Rejected(e, tcp, calls)
  {
    if calls != [NoSocket(e)] {
      var x := calls[0].x;
      assert |calls| == 3 ==> calls == [Made(e, x), Asked(ReuseAddress, x, false), Closed(x)];
      assert |calls| == 4 ==> calls == [Made(e, x), Asked(ReuseAddress, x, true), Asked(Bind, x, false), Closed(x)];
      assert |calls| == 5 ==> calls == [Made(e, x), Asked(ReuseAddress, x, true), Asked(Bind, x, true),
                                        Asked(Listen, x, false), Closed(x)];
    }
  }

  /** One candidate of Start: kept if everything is granted, closed otherwise. */
  method ListenCandidate(os: Os, endpoint: Endpoint, tcp: bool) returns (candidate: int, ghost more: seq<Call>)
    requires Valid(os.k)
    modifies os
    ensures os.log == old(os.log) + more
    ensures candidate == INVALID ==> Valid(os.k) && os.k.fds == old(os.k.fds) && old(os.k.next) <= os.k.next
    ensures candidate == INVALID ==> Failed(endpoint, ListenRequests(tcp), more)
    ensures candidate != INVALID ==> Free(old(os.k), candidate) && os.k == Open(old(os.k), candidate)
    ensures candidate != INVALID ==> Worked(endpoint, ListenRequests(tcp), old(os.k.next), more)
    ensures if candidate == INVALID then Rejected(endpoint, tcp, more)
            else more == ListenerCalls(endpoint, tcp, os.k.fds[candidate])
  {
    ghost var k := os.k;
    candidate := os.Socket(endpoint);
    if candidate == INVALID {
      return INVALID, [NoSocket(endpoint)];
    }
    var ok, asked := Prepare(os, candidate, tcp);
    AnsweredWorks(endpoint, ListenRequests(tcp), k.next, ok, asked);
    more := [Made(endpoint, k.next)] + asked;
    if !ok {
      os.CloseSocket(candidate);
      MadeAndClosed(k, candidate);
      more := more + [Closed(k.next)];
      candidate := INVALID;
      FailedIsRejected(endpoint, tcp, more);
    } else {
      WorkedListens(endpoint, tcp, k.next, more);
    }
  }

  /** The candidates of Start. */
  method ListenOnFirst(os: Os, endpoints: seq<Endpoint>, tcp: bool)
      returns (socket: int, ghost calls: seq<Call>, ghost tries: seq<seq<Call>>)
    requires Valid(os.k)
    modifies os
    ensures os.log == old(os.log) + calls
    ensures Searched(old(os.k), os.k, calls, endpoints, ListenRequests(tcp), false, socket, tries)
    ensures forall i :: 0 <= i < |tries| ==> Rejected(endpoints[i], tcp, tries[i])
    ensures socket != INVALID ==>
      calls == Flatten(tries) + ListenerCalls(endpoints[|tries|], tcp, os.k.fds[socket])
  {
    ghost var k0, requests := os.k, ListenRequests(tcp);
    calls, tries := [], [];
    NothingYet(k0, endpoints, requests, false);
    for i := 0 to |endpoints|
      invariant |tries| == i && os.log == old(os.log) + calls
      invariant Searching(k0, os.k, calls, endpoints, requests, false, tries)
      invariant forall j :: 0 <= j < |tries| ==> Rejected(endpoints[j], tcp, tries[j])
    {
      ghost var k := os.k;
      var candidate, more := ListenCandidate(os, endpoints[i], tcp);
      if candidate != INVALID {
        Found(k0, k, calls, endpoints, requests, false, tries, candidate, more);
        calls := calls + more;
        return candidate, calls, tries;
      }
      OneFailed(k0, k, calls, endpoints, requests, false, tries, os.k, more);
      calls, tries := calls + more, tries + [more];
    }
    NoneFound(k0, os.k, calls, endpoints, requests, false, tries);
    socket := INVALID;
  }

  /** For a UDP session, the search has the outcome that UdpMachine's `Pick` describes: the first
      endpoint that fits and for which the operating system makes a socket. */
  lemma SearchIsPick(k0: Kernel, k: Kernel, calls: seq<Call>, endpoints: seq<Endpoint>, h: int, tries: seq<seq<Call>>)
    returns (made: seq<bool>)
    requires Searched(k0, k, calls, endpoints, [], true, h, tries)
    ensures |made| == |endpoints|
    ensures forall i :: 0 <= i < |tries| ==> (made[i] <==> tries[i] == [])
    ensures UdpMachine.Pick(endpoints, made) == if h == INVALID then None else Some(|tries|)
  {
    made := seq(|endpoints|, i requires 0 <= i < |endpoints| => i >= |tries| || tries[i] == []);
  }

  /** What the calls for an endpoint that did not work out amount to. */
  function AnswerOf(calls: seq<Call>): Dialling.Answer {
    if |calls| == 1 then Dialling.Answer.NoSocket else Dialling.Answer.Refused
  }

  /** A search through the endpoints, as the machines describe it: the candidates of Start and the connection
      to the target.  No handle is returned exactly when all endpoints were tried in vain. */
  lemma SearchAnswers(k0: Kernel, k: Kernel, calls: seq<Call>, endpoints: seq<Endpoint>, requests: seq<Request>,
                      h: int, tries: seq<seq<Call>>)
    returns (answers: seq<Dialling.Answer>)
    requires Searched(k0, k, calls, endpoints, requests, false, h, tries)
    ensures |answers| >= |tries|
    ensures forall i :: 0 <= i < |tries| ==>
              answers[i] == if tries[i] == [NoSocket(endpoints[i])] then Dialling.Answer.NoSocket
                            else Dialling.Answer.Refused
    ensures if h == INVALID then Dialling.Exhausted(|endpoints|, answers)
            else Dialling.Won(|endpoints|, answers) && |answers| == |tries| + 1
  {
    answers := seq(|tries|, i requires 0 <= i < |tries| => AnswerOf(tries[i]));
    if h != INVALID {
      answers := answers + [Dialling.Granted];
    }
  }
}
