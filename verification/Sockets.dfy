/**
 The process's view of the operating system's sockets: a table from handle numbers to kernel
 sockets.  A number is free as soon as it is closed, and the next `socket` or `accept` may
 return any free number, so two kernel sockets can use the same number one after the other.
 A kernel socket has an identity of its own (a serial number), which the program never sees.
 */
module Sockets {
  const INVALID := -1
  const U64 := 0x1_0000_0000_0000_0000

  type Byte = b: int | 0 <= b < 256

  datatype Option<+T> = None | Some(value: T)

  /** `closes` counts, per kernel socket, the calls that closed it; `stray` counts the calls
      that closed a number which was not open. */
  datatype Kernel = Kernel(fds: map<int, nat>, next: nat, closes: multiset<nat>, stray: nat)

  const FRESH := Kernel(map[], 0, multiset{}, 0)

  ghost predicate IsOpen(k: Kernel, x: nat) {
    exists h :: h in k.fds && k.fds[h] == x
  }

  /** Handle `h` is open and stands for kernel socket `x`. */
  predicate Names(k: Kernel, h: int, x: nat) {
    h in k.fds && k.fds[h] == x
  }

  predicate Free(k: Kernel, h: int) {
    0 <= h && h !in k.fds
  }

  /** Every kernel socket made so far is open under exactly one number, or was closed exactly
      once; nothing else was ever closed. */
  ghost predicate Valid(k: Kernel) {
    && (forall h :: h in k.fds ==> 0 <= h && k.fds[h] < k.next)
    && (forall h, g :: h in k.fds && g in k.fds && k.fds[h] == k.fds[g] ==> h == g)
    && (forall x: nat {:trigger k.closes[x]} :: k.closes[x] == if x < k.next && !IsOpen(k, x) then 1 else 0)
    && k.stray == 0
  }

  /** `socket` or `accept`: the number comes from the operating system. */
  function Open(k: Kernel, h: int): Kernel
    requires Free(k, h)
  {
    k.(fds := k.fds[h := k.next], next := k.next + 1)
  }

  /** `CloseSocket` ignores the invalid handle. */
  function Close(k: Kernel, h: int): Kernel {
    if h == INVALID then k
    else if h in k.fds then k.(fds := k.fds - {h}, closes := k.closes + multiset{k.fds[h]})
    else k.(stray := k.stray + 1)
  }

  /** What a call on number `h` reaches at this moment. */
  function Lookup(k: Kernel, h: int): Option<nat> {
    if h in k.fds then Some(k.fds[h]) else None
  }

  /** The socket a shutdown call on number `h` reaches, if there is one. */
  function Reached(k: Kernel, h: int): set<nat> {
    if h in k.fds then {k.fds[h]} else {}
  }

  lemma OpenKeepsValid(k: Kernel, h: int)
    requires Valid(k) && Free(k, h)
    ensures Valid(Open(k, h)) && Names(Open(k, h), h, k.next)
    ensures forall x :: IsOpen(Open(k, h), x) <==> IsOpen(k, x) || x == k.next
  {
    var k' := Open(k, h);
    assert k'.fds[h] == k.next;
    forall x: nat ensures IsOpen(k', x) <==> IsOpen(k, x) || x == k.next {
      if IsOpen(k, x) {
        var g :| g in k.fds && k.fds[g] == x;
        assert k'.fds[g] == x;
      }
    }
  }

  lemma CloseKeepsValid(k: Kernel, h: int)
    requires Valid(k) && h in k.fds
    ensures Valid(Close(k, h))
    ensures forall x :: IsOpen(Close(k, h), x) <==> IsOpen(k, x) && x != k.fds[h]
  {
    var k' := Close(k, h);
    forall x: nat ensures IsOpen(k', x) <==> IsOpen(k, x) && x != k.fds[h] {
      if IsOpen(k, x) && x != k.fds[h] {
        var g :| g in k.fds && k.fds[g] == x;
        assert g in k'.fds && k'.fds[g] == x;
      }
    }
    assert IsOpen(k, k.fds[h]);
  }

  function CloseMany(k: Kernel, hs: seq<int>): Kernel {
    if hs == [] then k else Close(CloseMany(k, hs[..|hs| - 1]), hs[|hs| - 1])
  }

  /** Closing different open handles closes just these, and each of their sockets for good. */
  lemma {:induction false} CloseManyKeepsValid(k: Kernel, hs: seq<int>)
    requires Valid(k) && (forall h :: h in hs ==> h in k.fds)
    requires forall i, j :: 0 <= i < j < |hs| ==> hs[i] != hs[j]
    ensures var k' := CloseMany(k, hs);
      && Valid(k') && k'.next == k.next && k'.fds == k.fds - (set h | h in hs)
      && forall h :: h in hs ==> !IsOpen(k', k.fds[h])
  {
    if hs != [] {
      var most, last := hs[..|hs| - 1], hs[|hs| - 1];
      assert hs == most + [last];
      CloseManyKeepsValid(k, most);
      var k1 := CloseMany(k, most);
      assert last !in most;
      CloseKeepsValid(k1, last);
      assert (set h | h in hs) == (set h | h in most) + {last};
      assert Close(k1, last).fds == k.fds - (set h | h in hs);
    }
  }
}
