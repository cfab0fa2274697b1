/**
 What the thread that calls Start and Stop does (src/net/forwarder.cpp:226-361), for both forwarders: a book
 of its calls and their answers, in which each entry is checked against those before it.
 */
module StartLaw {
  import opened Dialling
  import opened Sockets

  /** `Down`: no forwarder; `Search`: Start tries its candidates; `Offered`: the requests on one; `Serve`: the
      forwarder is up; `Wind(n)`: Stop has done `n` actions: the flag is down, then the listener is shut down,
      closed and forgotten, the serving thread and the refresher joined; then the sessions are listed, and
      `Finish(n)`: `n` actions are left. */
  datatype Phase = Down | Search | Offered | Serve | Wind(done: nat) | Finish(left: nat)

  /** `Resolution`: of the target, with an allowed endpoint or not, and the number of candidates to listen on;
      `Listed`: the sessions to stop, with the number of actions that takes. */
  datatype Event = Resolution(found: bool, candidates: nat) | Action | Made(h: int) | Failure | Listed(actions: nat)

  /** `total`: candidates of this Start; `answers`: those tried so far; `number`: the handle last made. */
  datatype Book = Book(phase: Phase, total: nat, answers: seq<Answer>, number: int)

  const NEW := Book(Down, 0, [], INVALID)

  /** The book with one more entry, if that is in order. */
  function Entered(b: Book, e: Event): Option<Book> {
    match b.phase
    case Down =>
      if !e.Resolution? then None
      else Some(if e.found then b.(phase := Search, total := e.candidates, answers := []) else b)
    case Search =>
      if |b.answers| == b.total then (if e.Action? then Some(b.(phase := Down)) else None)
      else if e.Action? then Some(b.(answers := b.answers + [NoSocket]))
      else if e.Made? then Some(b.(phase := Offered, number := e.h))
      else None
    case Offered =>
      if e.Failure? then Some(b.(phase := Search, answers := b.answers + [Refused]))
      else if e.Action? then Some(b.(phase := Serve, answers := b.answers + [Granted]))
      else None
    case Serve => if e.Action? then Some(b.(phase := Wind(1))) else None
    case Wind(n) =>
      if n < 6 then (if e.Action? then Some(b.(phase := Wind(n + 1))) else None)
      else if e.Listed? then Some(b.(phase := Finish(e.actions)))
      else None
    case Finish(n) => if e.Action? then Some(b.(phase := if n <= 1 then Down else Finish(n - 1))) else None
  }

  /** What the phase says about the search. */
  predicate Searched(b: Book) {
    && (b.phase.Search? || b.phase.Offered? ==> Vain(b.total, b.answers))
    && (b.phase.Offered? ==> |b.answers| < b.total)
    && (b.phase.Serve? || b.phase.Wind? || b.phase.Finish? ==> Won(b.total, b.answers))
  }

  /** Start comes to an end in two ways: a candidate was granted after all before it had failed, or all failed. */
  lemma StartEnds(b: Book, e: Event)
    requires Searched(b) && (b.phase.Search? || b.phase.Offered?) && Entered(b, e).Some?
    ensures Entered(b, e).value.phase.Serve? ==> Won(b.total, Entered(b, e).value.answers)
    ensures Entered(b, e).value.phase.Down? ==> Exhausted(b.total, b.answers)
  {
  }
}
