/**
 What it means to try endpoints one after the other until one is granted: for the candidates of Start
 (src/net/forwarder.cpp:247-319) and for the connection to the target (99-133).
 */
module Dialling {
  /** The outcome for one endpoint: no socket, a socket that was refused something, or success. */
  datatype Answer = NoSocket | Refused | Granted

  /** The first |answers| of `n` endpoints were tried, in vain. */
  predicate Vain(n: nat, answers: seq<Answer>) {
    |answers| <= n && forall k :: 0 <= k < |answers| ==> !answers[k].Granted?
  }

  /** All of `n` endpoints were tried, in vain. */
  predicate Exhausted(n: nat, answers: seq<Answer>) {
    Vain(n, answers) && |answers| == n
  }

  /** One endpoint after the other was tried, in vain, up to the last one tried, which was granted. */
  predicate Won(n: nat, answers: seq<Answer>) {
    && 0 < |answers| <= n && answers[|answers| - 1].Granted?
    && forall k :: 0 <= k < |answers| - 1 ==> !answers[k].Granted?
  }
}
