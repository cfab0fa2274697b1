/**
 A chain of relays, as when a client-mode forwarder feeds a server-mode one: each hop relays what
 the link before it carried.
 */
module RelayChain {
  import opened RelaySession

  /** The sessions of a chain, seen in the client-to-upstream direction: a hop's client sends no
      more than the hop before it has delivered. */
  ghost predicate IsChain(hops: seq<State>) {
    && (forall i :: 0 <= i < |hops| ==> Reachable(hops[i]))
    && (forall i :: 0 < i < |hops| ==> hops[i].client.sent <= hops[i - 1].up.delivered)
  }

  /** Every hop has returned in this direction without trouble. */
  predicate AllDrained(hops: seq<State>) {
    forall i :: 0 <= i < |hops| ==>
      Over(hops[i].up) && !hops[i].stopping && !Troubled(hops[i].up) && !Troubled(hops[i].down)
  }

  /** Every link carried all that was put on it before its end was seen. */
  predicate LinksComplete(hops: seq<State>) {
    forall i :: 0 < i < |hops| ==>
      hops[i].client.fin && Over(hops[i - 1].up) ==> hops[i].client.sent == hops[i - 1].up.delivered
  }

  lemma {:induction false} ChainDeliversPrefix(hops: seq<State>)
    requires hops != [] && IsChain(hops)
    ensures hops[|hops| - 1].up.delivered <= hops[0].client.sent
  {
    var n := |hops| - 1;
    DeliveredIsPrefix(hops[n]);
    if n > 0 {
      assert forall i :: 0 <= i < n ==> hops[..n][i] == hops[i];
      ChainDeliversPrefix(hops[..n]);
    }
  }

  lemma {:induction false} ChainDeliversAll(hops: seq<State>)
    requires hops != [] && IsChain(hops) && AllDrained(hops) && LinksComplete(hops)
    ensures hops[0].client.fin && hops[|hops| - 1].up.delivered == hops[0].client.sent
  {
    var n := |hops| - 1;
    CleanEndIsComplete(hops[n]);
    if n > 0 {
      assert forall i :: 0 <= i < n ==> hops[..n][i] == hops[i];
      ChainDeliversAll(hops[..n]);
    }
  }

  // The way back: what the last upstream sends, and what reaches the first client.

  ghost predicate IsReturnChain(hops: seq<State>) {
    && (forall i :: 0 <= i < |hops| ==> Reachable(hops[i]))
    && (forall i :: 0 <= i < |hops| - 1 ==> hops[i].upstream.sent <= hops[i + 1].down.delivered)
  }

  predicate AllReturned(hops: seq<State>) {
    forall i :: 0 <= i < |hops| ==>
      Over(hops[i].down) && !hops[i].stopping && !Troubled(hops[i].up) && !Troubled(hops[i].down)
  }

  predicate ReturnLinksComplete(hops: seq<State>) {
    forall i :: 0 <= i < |hops| - 1 ==>
      hops[i].upstream.fin && Over(hops[i + 1].down) ==> hops[i].upstream.sent == hops[i + 1].down.delivered
  }

  lemma {:induction false} ReturnDeliversPrefix(hops: seq<State>)
    requires hops != [] && IsReturnChain(hops)
    ensures hops[0].down.delivered <= hops[|hops| - 1].upstream.sent
  {
    DeliveredIsPrefix(hops[0]);
    if |hops| > 1 {
      assert forall i :: 0 <= i < |hops| - 1 ==> hops[1..][i] == hops[i + 1];
      ReturnDeliversPrefix(hops[1..]);
    }
  }

  lemma {:induction false} ReturnDeliversAll(hops: seq<State>)
    requires hops != [] && IsReturnChain(hops) && AllReturned(hops) && ReturnLinksComplete(hops)
    ensures hops[|hops| - 1].upstream.fin && hops[0].down.delivered == hops[|hops| - 1].upstream.sent
  {
    CleanEndIsComplete(hops[0]);
    if |hops| > 1 {
      assert forall i :: 0 <= i < |hops| - 1 ==> hops[1..][i] == hops[i + 1];
      ReturnDeliversAll(hops[1..]);
    }
  }
}
