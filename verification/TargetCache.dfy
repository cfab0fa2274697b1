/** The cached target list (src/net/forwarder.cpp:391-412): a failed resolution keeps the last good one. */
module TargetCache {
  import opened Endpoints

  /** The last resolution that gave an allowed endpoint. */
  function LastGood(preference: Preference, resolutions: seq<seq<Endpoint>>): seq<Endpoint> {
    if resolutions == [] then []
    else
      var found := Arranged(resolutions[|resolutions| - 1], preference);
      if found != [] then found else LastGood(preference, resolutions[..|resolutions| - 1])
  }

  /** The list after one more resolution. */
  function Refreshed(preference: Preference, cache: seq<Endpoint>, result: seq<Endpoint>): seq<Endpoint> {
    var found := Arranged(result, preference);
    if found == [] then cache else found
  }

  lemma RefreshedIsLastGood(preference: Preference, resolutions: seq<seq<Endpoint>>, result: seq<Endpoint>)
    ensures Refreshed(preference, LastGood(preference, resolutions), result)
         == LastGood(preference, resolutions + [result])
  {
    assert (resolutions + [result])[..|resolutions|] == resolutions;
  }

  lemma {:induction false} LastGoodIsAllowed(preference: Preference, resolutions: seq<seq<Endpoint>>)
    ensures forall e :: e in LastGood(preference, resolutions) ==> Allowed(preference, e)
  {
    if resolutions != [] {
      ArrangedTwice(resolutions[|resolutions| - 1], preference);
      LastGoodIsAllowed(preference, resolutions[..|resolutions| - 1]);
    }
  }

  /** The list and its lock; `resolutions` is the history of what the resolver returned. */
  class Cache {
    const families: Families
    var endpoints: seq<Endpoint>
    ghost var resolutions: seq<seq<Endpoint>>

    ghost predicate Valid()
      reads this
    {
      endpoints == LastGood(EffectiveTarget(families), resolutions)
    }

    constructor (families: Families)
      ensures Valid() && this.families == families && endpoints == [] && resolutions == []
    {
      this.families, endpoints, resolutions := families, [], [];
    }

    /** `result` is what the resolver returns. */
    method ResolveTargetEndpoints(result: seq<Endpoint>) returns (ok: bool)
      requires Valid() && (EffectiveTarget(families).Auto? ==> StrictWeakOn(result))
      modifies this
      ensures Valid() && resolutions == old(resolutions) + [result]
      ensures ok <==> Arranged(result, EffectiveTarget(families)) != []
      ensures endpoints == if ok then Arranged(result, EffectiveTarget(families)) else old(endpoints)
    {
      RefreshedIsLastGood(EffectiveTarget(families), resolutions, result);
      resolutions := resolutions + [result];
      var found := SortEndpoints(result, EffectiveTarget(families));
      if found == [] {
        return false;
      }
      endpoints := found;
      return true;
    }

    method TargetEndpointsSnapshot() returns (r: seq<Endpoint>)
      requires Valid()
      ensures r == LastGood(EffectiveTarget(families), resolutions)
    {
      r := endpoints;
    }
  }
}
