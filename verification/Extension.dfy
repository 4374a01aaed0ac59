/**
 The extension's cached data: the refresh as one call after the other, with the comparison
 that skips the write when nothing has changed.
 */
module Extension {
  import opened Wrappers
  import opened Structs

  const NO_DATA := ExtensionData("", "", "", "", [])

  /** The cached data and the trust domain each upstream uses in its SNI. */
  datatype Cache = Cache(data: ExtensionData, trustDomains: seq<string>)

  predicate Coherent(c: Cache) {
    forall i :: 0 <= i < |c.trustDomains| ==> c.trustDomains[i] == c.data.trustDomain
  }

  /** The simple refresh: write everything. */
  function Overwrite(c: Cache, d: ExtensionData): Cache {
    Cache(d, seq(|c.trustDomains|, i => d.trustDomain))
  }

  /** The refresh as it is done: compare first, and write only what has changed. */
  function Refresh(c: Cache, d: ExtensionData): Cache {
    if d == c.data then c else Overwrite(c, d)
  }

  /** Skipping is as good as overwriting exactly if there is something to write or the cache is coherent. */
  lemma SkipAgrees(c: Cache, d: ExtensionData)
    ensures Refresh(c, d) == Overwrite(c, d) <==> d != c.data || Coherent(c)
    ensures Coherent(Overwrite(c, d))
  {
    if Refresh(c, d) == Overwrite(c, d) && d == c.data {
      assert forall i :: 0 <= i < |c.trustDomains| ==> c.trustDomains[i] == Overwrite(c, d).trustDomains[i];
    }
    if Coherent(c) && d == c.data {
      assert c.trustDomains == Overwrite(c, d).trustDomains;
    }
  }

  /** What reading the parameter and decoding it can yield. */
  datatype Fetch = Unavailable | Malformed | Fetched(d: ExtensionData)

  /** The fetches a refresh loop gets to see: it stops after the first that fails. */
  function UntilFailure(fetches: seq<Fetch>): seq<Fetch> {
    if fetches == [] then []
    else if !fetches[0].Fetched? then [fetches[0]]
    else [fetches[0]] + UntilFailure(fetches[1..])
  }

  /** The first `n` fetches succeed, and the next one, if any, does not. */
  predicate Prefix(fetches: seq<Fetch>, n: int) {
    && 0 <= n <= |fetches|
    && (forall j :: 0 <= j < n ==> fetches[j].Fetched?)
    && (n < |fetches| ==> !fetches[n].Fetched?)
  }

  /** The most recent data among some fetches. */
  function Latest(fetches: seq<Fetch>, initial: ExtensionData): ExtensionData {
    if fetches == [] then initial
    else
      var last := fetches[|fetches| - 1];
      if last.Fetched? then last.d else Latest(fetches[..|fetches| - 1], initial)
  }

  class Extension {
    const serviceUpstreams: seq<string>
    var data: ExtensionData
    var dataInit: bool
    var upstreams: seq<Service>

    constructor (serviceUpstreams: seq<string>)
      ensures this.serviceUpstreams == serviceUpstreams
      ensures data == NO_DATA && !dataInit && upstreams == [] && Coherent(Cached())
    {
      this.serviceUpstreams := serviceUpstreams;
      data, dataInit, upstreams := NO_DATA, false, [];
    }

    ghost function Cached(): Cache
      reads this
    {
      Cache(data, seq(|upstreams|, i requires 0 <= i < |upstreams| reads this => upstreams[i].trustDomain))
    }

    /** The configured upstreams up to the first that cannot be parsed; parsed upstreams have no trust domain yet. */
    method ParseUpstreams() returns (ok: bool)
      modifies this`upstreams
      ensures ok <==> forall s :: s in serviceUpstreams ==> Parse(s).Ok?
      ensures |upstreams| <= |serviceUpstreams| && (ok ==> |upstreams| == |serviceUpstreams|)
      ensures forall i :: 0 <= i < |upstreams| ==> Parse(serviceUpstreams[i]) == Ok(upstreams[i])
      ensures !ok ==> |upstreams| < |serviceUpstreams| && Parse(serviceUpstreams[|upstreams|]).Err?
      ensures data.trustDomain == "" ==> Coherent(Cached())
    {
      upstreams := [];
      for i := 0 to |serviceUpstreams|
        invariant |upstreams| == i
        invariant forall j :: 0 <= j < i ==> Parse(serviceUpstreams[j]) == Ok(upstreams[j])
        invariant forall j :: 0 <= j < i ==> upstreams[j].trustDomain == ""
      {
        var up := ParseUpstream(serviceUpstreams[i]);
        if up.Err? {
          return false;
        }
        upstreams := upstreams + [up.value];
      }
      return true;
    }

    /**
     One call of `getExtensionData`. On success the cache is what an unconditional overwrite
     with the fetched data would have made it, on failure it is as before.
     */
    method GetExtensionData(fetch: Fetch) returns (ok: bool)
      requires Coherent(Cached())
      modifies this
      ensures ok <==> fetch.Fetched?
      ensures Cached() == if ok then Overwrite(old(Cached()), fetch.d) else old(Cached())
      ensures ok ==> data == fetch.d
      ensures ok ==> forall i :: 0 <= i < |upstreams| ==> upstreams[i].trustDomain == fetch.d.trustDomain
      ensures !ok ==> data == old(data) && upstreams == old(upstreams)
      ensures Coherent(Cached())
      ensures dataInit
      ensures |upstreams| == |old(upstreams)|
      ensures forall i :: 0 <= i < |upstreams| ==>
                upstreams[i] == old(upstreams[i]).(trustDomain := upstreams[i].trustDomain)
    {
      ghost var was := Cached();
      if !fetch.Fetched? {
        dataInit := true;
        assert Cached() == was;
        return false;
      }
      var extData := fetch.d;
      SkipAgrees(was, extData);
      if extData != data {
        data := extData;
        var idx := 0;
        while idx < |upstreams|
          invariant 0 <= idx <= |upstreams| == |old(upstreams)| && data == extData
          invariant forall i :: 0 <= i < |upstreams| ==>
                      upstreams[i] == if i < idx then old(upstreams[i]).(trustDomain := data.trustDomain)
                                      else old(upstreams[i])
        {
          upstreams := upstreams[idx := upstreams[idx].(trustDomain := data.trustDomain)];
          idx := idx + 1;
        }
      }
      dataInit := true;
      assert Cached().trustDomains == Overwrite(was, extData).trustDomains;
      assert forall i :: 0 <= i < |upstreams| ==> Cached().trustDomains[i] == upstreams[i].trustDomain;
      return true;
    }

    /** The refresh loop: the first fetch, then one at each tick until one fails or the ticks end. */
    method RefreshExtensionData(fetches: seq<Fetch>) returns (ok: bool, ghost seen: seq<Fetch>)
      requires Coherent(Cached())
      modifies this
      ensures seen == UntilFailure(fetches)
      ensures ok <==> forall f :: f in fetches ==> f.Fetched?
      ensures Cached() == Overwrite(old(Cached()), Latest(seen, old(data)))
      ensures exists n :: Prefix(fetches, n) && data == if n == 0 then old(data) else fetches[n - 1].d
    {
      seen := [];
      SkipAgrees(Cached(), data);
      var i := 0;
      while i < |fetches|
        invariant 0 <= i <= |fetches| && seen == fetches[..i]
        invariant forall j :: 0 <= j < i ==> fetches[j].Fetched?
        invariant Coherent(Cached()) && Cached() == Overwrite(old(Cached()), Latest(seen, old(data)))
        invariant data == if i == 0 then old(data) else fetches[i - 1].d
      {
        var done := GetExtensionData(fetches[i]);
        assert (seen + [fetches[i]])[..|seen|] == seen;
        seen := seen + [fetches[i]];
        if !done {
          FailureCuts(fetches, i);
          assert fetches[i] in fetches;
          assert Prefix(fetches, i);
          return false, seen;
        }
        i := i + 1;
      }
      NoFailure(fetches);
      assert Prefix(fetches, i);
      assert fetches[..i] == fetches;
      return true, seen;
    }
  }

  lemma {:induction false} FailureCuts(fetches: seq<Fetch>, i: nat)
    requires i < |fetches| && !fetches[i].Fetched?
    requires forall j :: 0 <= j < i ==> fetches[j].Fetched?
    ensures UntilFailure(fetches) == fetches[..i + 1]
  {
    if i > 0 {
      FailureCuts(fetches[1..], i - 1);
      assert fetches[..i + 1] == [fetches[0]] + fetches[1..][..i];
    }
  }

  lemma {:induction false} NoFailure(fetches: seq<Fetch>)
    requires forall f :: f in fetches ==> f.Fetched?
    ensures UntilFailure(fetches) == fetches
  {
    if fetches != [] {
      NoFailure(fetches[1..]);
    }
  }
}
