/** Resolved endpoints and the order in which they are tried. */
module Endpoints {

  const STORAGE := 128 // sizeof(sockaddr_storage)

  datatype Family = V4 | V6 | Unknown(code: int)
  datatype Preference = Auto | OnlyV4 | OnlyV6
  datatype Endpoint = Endpoint(ip: string, port: nat, family: Family, addressLength: nat)

  /** The comparator given to `std::stable_sort`. */
  predicate Before(a: Endpoint, b: Endpoint) {
    a.family.V6? && b.family.V4?
  }

  predicate Tied(a: Endpoint, b: Endpoint) {
    !Before(a, b) && !Before(b, a)
  }

  predicate Has(es: seq<Endpoint>, family: Family) {
    exists i :: 0 <= i < |es| && es[i].family == family
  }

  predicate AllKnown(es: seq<Endpoint>) {
    forall i :: 0 <= i < |es| ==> !es[i].family.Unknown?
  }

  /** `std::stable_sort` demands a strict weak order on the elements of its range. */
  ghost predicate StrictWeakOn(es: seq<Endpoint>) {
    && (forall a :: a in es ==> !Before(a, a))
    && (forall a, b, c :: a in es && b in es && c in es && Before(a, b) && Before(b, c) ==> Before(a, c))
    && (forall a, b, c :: a in es && b in es && c in es && Tied(a, b) && Tied(b, c) ==> Tied(a, c))
  }

  /** The comparator is a strict weak order exactly on the lists that do not mix all three kinds
      of family: an unknown family ties with both others, which do not tie with each other. */
  lemma ComparatorIsStrictWeak(es: seq<Endpoint>)
    ensures StrictWeakOn(es) <==> !(Has(es, V4) && Has(es, V6) && !AllKnown(es))
  {
    if Has(es, V4) && Has(es, V6) && !AllKnown(es) {
      var i :| 0 <= i < |es| && es[i].family == V4;
      var j :| 0 <= j < |es| && es[j].family == V6;
      var u :| 0 <= u < |es| && es[u].family.Unknown?;
      assert es[i] in es && es[j] in es && es[u] in es;
      assert Tied(es[j], es[u]) && Tied(es[u], es[i]) && !Tied(es[j], es[i]);
    } else {
      forall a, b, c | a in es && b in es && c in es && Tied(a, b) && Tied(b, c) ensures Tied(a, c) {
        var i :| 0 <= i < |es| && es[i] == a;
        var j :| 0 <= j < |es| && es[j] == b;
        var u :| 0 <= u < |es| && es[u] == c;
      }
    }
  }

  /** The order-preserving filter. */
  function OfFamily(es: seq<Endpoint>, family: Family): (r: seq<Endpoint>)
    ensures forall e :: e in r <==> e in es && e.family == family
  {
    if es == [] then []
    else (if es[0].family == family then [es[0]] else []) + OfFamily(es[1..], family)
  }

  function TiedWith(es: seq<Endpoint>, x: Endpoint): seq<Endpoint> {
    if es == [] then []
    else (if Tied(es[0], x) then [es[0]] else []) + TiedWith(es[1..], x)
  }

  /** What the standard promises of `std::stable_sort`: no element comes before one it follows,
      and tied elements keep their order (and are all there). */
  ghost predicate StableSortOf(es: seq<Endpoint>, r: seq<Endpoint>) {
    && InSequence(r)
    && (forall x :: x in es ==> TiedWith(r, x) == TiedWith(es, x))
    && (forall x :: x in r <==> x in es)
  }

  /** The list in the order it is tried. */
  function Arranged(es: seq<Endpoint>, preference: Preference): seq<Endpoint> {
    match preference
    case OnlyV4 => OfFamily(es, V4)
    case OnlyV6 => OfFamily(es, V6)
    case Auto => if AllKnown(es) then OfFamily(es, V6) + OfFamily(es, V4) else es
  }

  predicate Allowed(preference: Preference, e: Endpoint) {
    match preference
    case Auto => true
    case OnlyV4 => e.family == V4
    case OnlyV6 => e.family == V6
  }

  // An implementation of `std::stable_sort`, by insertion.

  function Insert(e: Endpoint, r: seq<Endpoint>): seq<Endpoint> {
    if r == [] || !Before(r[0], e) then [e] + r else [r[0]] + Insert(e, r[1..])
  }

  function StableSort(es: seq<Endpoint>): seq<Endpoint> {
    if es == [] then [] else Insert(es[0], StableSort(es[1..]))
  }

  lemma InsertMembers(e: Endpoint, r: seq<Endpoint>)
    ensures forall x :: x in Insert(e, r) <==> x == e || x in r
  {
  }

  /** No element comes before one it follows. */
  predicate InSequence(r: seq<Endpoint>) {
    forall i, j :: 0 <= i < j < |r| ==> !Before(r[j], r[i])
  }

  lemma HeadIsFirst(x: Endpoint, r: seq<Endpoint>)
    requires InSequence(r) && forall y :: y in r ==> !Before(y, x)
    ensures InSequence([x] + r)
  {
  }

  lemma TailInSequence(r: seq<Endpoint>)
    requires InSequence(r) && r != []
    ensures InSequence(r[1..]) && forall y :: y in r[1..] ==> !Before(y, r[0])
  {
    forall y | y in r[1..] ensures !Before(y, r[0]) {
      var n :| 0 <= n < |r[1..]| && r[1..][n] == y;
      assert r[n + 1] == y;
    }
  }

  lemma {:induction false} InsertInSequence(e: Endpoint, r: seq<Endpoint>, all: seq<Endpoint>)
    requires StrictWeakOn(all) && e in all && forall x :: x in r ==> x in all
    requires InSequence(r)
    ensures InSequence(Insert(e, r))
  {
    if r == [] {
    } else if !Before(r[0], e) {
      TailInSequence(r);
      assert r[0] in all;
      forall y | y in r ensures !Before(y, e) {
        assert y == r[0] || y in r[1..];
      }
      HeadIsFirst(e, r);
    } else {
      TailInSequence(r);
      InsertInSequence(e, r[1..], all);
      InsertMembers(e, r[1..]);
      HeadIsFirst(r[0], Insert(e, r[1..]));
    }
  }

  lemma {:induction false} InsertKeepsTies(e: Endpoint, r: seq<Endpoint>, all: seq<Endpoint>, x: Endpoint)
    requires StrictWeakOn(all) && e in all && x in all && forall y :: y in r ==> y in all
    ensures TiedWith(Insert(e, r), x) == TiedWith([e] + r, x)
  {
    if r != [] && Before(r[0], e) {
      var rest := r[1..];
      InsertKeepsTies(e, rest, all, x);
      assert ([e] + r)[1..] == r && ([e] + rest)[1..] == rest;
      assert ([r[0]] + Insert(e, rest))[1..] == Insert(e, rest);
      assert r[0] in all;
      assert Tied(e, x) ==> Tied(x, e);
      assert !Tied(r[0], e);
    }
  }

  lemma {:induction false} StableSortIsStable(es: seq<Endpoint>, all: seq<Endpoint>)
    requires StrictWeakOn(all) && forall x :: x in es ==> x in all
    ensures InSequence(StableSort(es))
    ensures forall x :: x in all ==> TiedWith(StableSort(es), x) == TiedWith(es, x)
    ensures forall x :: x in StableSort(es) <==> x in es
  {
    if es != [] {
      StableSortIsStable(es[1..], all);
      InsertInSequence(es[0], StableSort(es[1..]), all);
      InsertMembers(es[0], StableSort(es[1..]));
      forall x | x in all ensures TiedWith(StableSort(es), x) == TiedWith(es, x) {
        InsertKeepsTies(es[0], StableSort(es[1..]), all, x);
        assert ([es[0]] + StableSort(es[1..]))[1..] == StableSort(es[1..]);
      }
    }
  }

  lemma NoneOfFamily(es: seq<Endpoint>, family: Family)
    requires forall e :: e in es ==> e.family != family
    ensures OfFamily(es, family) == []
  {
  }

  lemma {:induction false} SortedSplits(r: seq<Endpoint>)
    requires AllKnown(r) && InSequence(r)
    ensures r == OfFamily(r, V6) + OfFamily(r, V4)
  {
    if r != [] {
      var head, rest := [r[0]], r[1..];
      var v6, v4 := OfFamily(rest, V6), OfFamily(rest, V4);
      TailInSequence(r);
      SortedSplits(rest);
      assert r == head + rest;
      if r[0].family.V4? {
        NoneOfFamily(rest, V6);
        assert OfFamily(r, V6) == v6 == [] && OfFamily(r, V4) == head + v4 && rest == v4;
      } else {
        assert OfFamily(r, V6) == head + v6 && OfFamily(r, V4) == v4;
        assert head + (v6 + v4) == (head + v6) + v4;
      }
    }
  }

  lemma {:induction false} TiedIsFamily(es: seq<Endpoint>, x: Endpoint)
    requires AllKnown(es) && !x.family.Unknown?
    ensures TiedWith(es, x) == OfFamily(es, x.family)
  {
    if es != [] {
      TiedIsFamily(es[1..], x);
    }
  }

  lemma {:induction false} AllTied(es: seq<Endpoint>, all: seq<Endpoint>, x: Endpoint)
    requires forall a, b :: a in all && b in all ==> Tied(a, b)
    requires x in all && forall e :: e in es ==> e in all
    ensures TiedWith(es, x) == es
  {
    if es != [] {
      assert es[0] in all;
      AllTied(es[1..], all, x);
    }
  }

  /** Whatever stable sort the library uses, on a list the comparator is a strict weak order for
      the outcome is the same: IPv6 endpoints in their original order, then IPv4 endpoints in
      theirs (and a list with an unknown family is left alone). */
  lemma StableSortIsUnique(es: seq<Endpoint>, r: seq<Endpoint>)
    requires StrictWeakOn(es) && StableSortOf(es, r)
    ensures r == Arranged(es, Auto)
  {
    ComparatorIsStrictWeak(es);
    if !AllKnown(es) {
      forall a, b | a in es && b in es ensures Tied(a, b) {
        var i :| 0 <= i < |es| && es[i] == a;
        var j :| 0 <= j < |es| && es[j] == b;
      }
      assert es[0] in es;
      AllTied(es, es, es[0]);
      AllTied(r, es, es[0]);
    } else {
      forall i | 0 <= i < |r| ensures !r[i].family.Unknown? { assert r[i] in es; }
      SortedSplits(r);
      SameFamily(es, r, V6);
      SameFamily(es, r, V4);
    }
  }

  lemma SameFamily(es: seq<Endpoint>, r: seq<Endpoint>, family: Family)
    requires AllKnown(es) && AllKnown(r) && !family.Unknown?
    requires StableSortOf(es, r)
    ensures OfFamily(r, family) == OfFamily(es, family)
  {
    if OfFamily(es, family) != [] {
      var x := OfFamily(es, family)[0];
      assert x in es;
      TiedIsFamily(es, x);
      TiedIsFamily(r, x);
    } else {
      forall e | e in r ensures e.family != family {
        assert e in es && e !in OfFamily(es, family);
      }
      NoneOfFamily(r, family);
    }
  }

  lemma {:induction false} FilterTwice(es: seq<Endpoint>, family: Family)
    ensures OfFamily(OfFamily(es, family), family) == OfFamily(es, family)
  {
    if es != [] {
      var rest := OfFamily(es[1..], family);
      FilterTwice(es[1..], family);
      assert ([es[0]] + rest)[1..] == rest && [] + rest == rest;
    }
  }

  /** Arranging is idempotent, keeps exactly the allowed endpoints, and loses none. */
  lemma ArrangedTwice(es: seq<Endpoint>, preference: Preference)
    ensures Arranged(Arranged(es, preference), preference) == Arranged(es, preference)
    ensures forall e :: e in Arranged(es, preference) <==> e in es && Allowed(preference, e)
  {
    match preference {
      case OnlyV4 => FilterTwice(es, V4);
      case OnlyV6 => FilterTwice(es, V6);
      case Auto =>
        if AllKnown(es) {
          var r := Arranged(es, Auto);
          forall e | e in es ensures e in r {
            var i :| 0 <= i < |es| && es[i] == e;
            assert !es[i].family.Unknown?;
          }
          var v6, v4 := OfFamily(es, V6), OfFamily(es, V4);
          forall i | 0 <= i < |r| ensures !r[i].family.Unknown? { assert r[i] in v6 || r[i] in v4; }
          forall i, j | 0 <= i < j < |r| ensures !Before(r[j], r[i]) {
            if i < |v6| { assert r[i] in v6; } else { assert r[i] in v4 && r[j] in v4; }
          }
          SortedSplits(r);
        }
    }
  }

  /** A preference for one family leaves exactly its endpoints; without a preference all stay. */
  lemma OnlyAskedFamilyStays(es: seq<Endpoint>, e: Endpoint)
    ensures e in Arranged(es, OnlyV4) <==> e in es && e.family.V4?
    ensures e in Arranged(es, OnlyV6) <==> e in es && e.family.V6?
    ensures e in Arranged(es, Auto) <==> e in es
  {
    ArrangedTwice(es, Auto);
  }

  lemma StableSortIsArranged(es: seq<Endpoint>)
    requires StrictWeakOn(es)
    ensures StableSort(es) == Arranged(es, Auto)
  {
    StableSortIsStable(es, es);
    StableSortIsUnique(es, StableSort(es));
  }

  /** The filter judges each endpoint by itself and keeps their order. */
  lemma {:induction false} OfFamilyGrows(es: seq<Endpoint>, e: Endpoint, family: Family)
    ensures OfFamily(es + [e], family) == OfFamily(es, family) + if e.family == family then [e] else []
  {
    if es == [] {
      assert ([] + [e])[1..] == [];
    } else {
      assert (es + [e])[1..] == es[1..] + [e];
      OfFamilyGrows(es[1..], e, family);
    }
  }

  /** With no preference, IPv6 endpoints come before IPv4 endpoints. */
  lemma V6First(es: seq<Endpoint>, i: nat, j: nat)
    requires AllKnown(es) && i < j < |Arranged(es, Auto)|
    ensures Arranged(es, Auto)[j].family == V6 ==> Arranged(es, Auto)[i].family == V6
  {
    var v6, v4 := OfFamily(es, V6), OfFamily(es, V4);
    if i < |v6| { assert v6[i] in v6; }
    if j >= |v6| { assert v4[j - |v6|] in v4; }
  }

  method FilterFamily(endpoints: seq<Endpoint>, native: Family) returns (r: seq<Endpoint>)
    ensures r == OfFamily(endpoints, native)
  {
    r := [];
    for i := 0 to |endpoints|
      invariant r == OfFamily(endpoints[..i], native)
    {
      OfFamilyGrows(endpoints[..i], endpoints[i], native);
      assert endpoints[..i] + [endpoints[i]] == endpoints[..i + 1];
      if endpoints[i].family == native {
        r := r + [endpoints[i]];
      }
    }
    assert endpoints[..|endpoints|] == endpoints;
  }

  /** SortEndpoints (src/net/forwarder.cpp:50-68). */
  method SortEndpoints(endpoints: seq<Endpoint>, preference: Preference) returns (r: seq<Endpoint>)
    requires preference.Auto? ==> StrictWeakOn(endpoints)
    ensures r == Arranged(endpoints, preference)
  {
    if preference.Auto? {
      r := StableSort(endpoints);
      StableSortIsArranged(endpoints);
      return;
    }
    var native := if preference.OnlyV4? then V4 else V6;
    r := FilterFamily(endpoints, native);
  }

  datatype Families = Families(legacy: Preference, listen: Preference, target: Preference)

  function EffectiveTarget(c: Families): Preference {
    if c.target != Auto then c.target
    else if c.listen == Auto && c.legacy != Auto then c.legacy
    else Auto
  }

  /** A family asked for the target wins; the common setting counts only if nothing was asked for either side;
      otherwise any family will do. */
  lemma ExplicitFamilyWins(c: Families)
    ensures c.target != Auto ==> EffectiveTarget(c) == c.target
    ensures c.target == Auto && c.listen == Auto ==> EffectiveTarget(c) == c.legacy
    ensures c.target == Auto && c.listen != Auto ==> EffectiveTarget(c) == Auto
  {
  }

  /** Something is left of a list exactly if it holds an allowed endpoint. */
  lemma AllowedRemains(result: seq<Endpoint>, preference: Preference)
    ensures Arranged(result, preference) != [] <==> exists e :: e in result && Allowed(preference, e)
  {
    ArrangedTwice(result, preference);
    if Arranged(result, preference) != [] {
      assert Arranged(result, preference)[0] in Arranged(result, preference);
    }
  }
}
