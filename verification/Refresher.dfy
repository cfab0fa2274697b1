/**
 The thread that refreshes the target list (src/net/forwarder.cpp:419-447), as both forwarders start
 and join it.  `Clock.ResolverTicks` tells when a tick leads to a resolution.
 */
module Refresher {
  import opened Sockets

  /** `Ticking`: the flag was found set after the sleep; a tick may resolve the target or not. */
  datatype Resolver = Off | Top | Sleeping | Checking | Ticking | Exited

  /** The next point of the thread when it resolves nothing. */
  function Moved(r: Resolver, running: bool): Option<Resolver> {
    match r
    case Top => Some(if running then Sleeping else Exited)
    case Sleeping => Some(Checking)
    case Checking => Some(if running then Ticking else Exited)
    case Ticking => Some(Top)
    case _ => None
  }

  /** Steps left once the running flag is down. */
  function ResolverRank(r: Resolver): nat {
    match r
    case Off => 0
    case Exited => 0
    case Top => 1
    case Checking => 1
    case Sleeping => 2
    case Ticking => 2
  }

  /** Steps to the next tick. */
  function TickIn(r: Resolver): nat {
    match r
    case Ticking => 0
    case Checking => 1
    case Sleeping => 2
    case _ => 3
  }
}
