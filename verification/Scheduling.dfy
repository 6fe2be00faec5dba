/** What each operation makes of the dial order, by the places of its candidates. */
module Scheduling {
  import opened Base
  import opened Endpoint
  import opened Pool

  /** Both are there, and `a` comes first. */
  predicate Before(s: seq<Endpoint>, a: Endpoint, b: Endpoint) {
    a in s && b in s && Place(s, a) < Place(s, b)
  }

  lemma {:induction false} PlaceFirst(s: seq<Endpoint>, e: Endpoint)
    requires e in s
    ensures e !in s[..Place(s, e)]
  {
    if s[0] != e {
      PlaceFirst(s[1..], e);
      assert s[..Place(s, e)] == [s[0]] + s[1..][..Place(s[1..], e)];
    }
  }

  lemma {:induction false} PlacePlus(a: seq<Endpoint>, b: seq<Endpoint>, e: Endpoint)
    requires e in a + b
    ensures Place(a + b, e) == if e in a then Place(a, e) else |a| + Place(b, e)
  {
    if a == [] {
      assert a + b == b;
    } else if a[0] != e {
      assert (a + b)[1..] == a[1..] + b;
      PlacePlus(a[1..], b, e);
    }
  }

  /** Filtering keeps what it keeps in order. */
  lemma {:induction false} SelectBefore(s: seq<Endpoint>, among: seq<Endpoint>, keep: bool, a: Endpoint, b: Endpoint)
    requires a in Select(s, among, keep) && b in Select(s, among, keep)
    ensures Before(Select(s, among, keep), a, b) <==> Before(s, a, b)
  {
    var rest := Select(s[1..], among, keep);
    if (s[0] in among) == keep {
      assert Select(s, among, keep) == [s[0]] + rest;
      assert ([s[0]] + rest)[1..] == rest;
      if a != s[0] && b != s[0] {
        SelectBefore(s[1..], among, keep, a, b);
      }
    } else {
      SelectBefore(s[1..], among, keep, a, b);
    }
  }

  /** Of repeated endpoints the first is kept, and what is kept stays in order. */
  lemma {:induction false} DedupBefore(s: seq<Endpoint>, a: Endpoint, b: Endpoint)
    requires a in s && b in s
    ensures Before(Dedup(s), a, b) <==> Before(s, a, b)
    decreases |s|
  {
    var init, last := s[..|s| - 1], s[|s| - 1];
    assert s == init + [last];
    PlacePlus(init, [last], a);
    PlacePlus(init, [last], b);
    if a in init && b in init {
      DedupBefore(init, a, b);
    }
    if last !in Dedup(init) {
      PlacePlus(Dedup(init), [last], a);
      PlacePlus(Dedup(init), [last], b);
    }
  }

  // ---- Merging new candidates into an order ----

  /** What is in the order already, in its order, then what is new, in the order of the base. */
  function Merged(order: seq<Endpoint>, base: seq<Endpoint>): seq<Endpoint> {
    var existing := Select(order, base, true);
    existing + Select(base, existing, false)
  }

  ghost predicate Merges(order: seq<Endpoint>, base: seq<Endpoint>, merged: seq<Endpoint>) {
    && (forall e :: e in merged <==> e in base)
    && (forall a, b :: a in merged && b in merged && a in order && b in order ==>
          (Before(merged, a, b) <==> Before(order, a, b)))
    && (forall a, b :: a in merged && b in merged && a in order && b !in order ==> Before(merged, a, b))
    && (forall a, b :: a in merged && b in merged && a !in order && b !in order ==>
          (Before(merged, a, b) <==> Before(base, a, b)))
  }

  lemma MergedPlaces(order: seq<Endpoint>, base: seq<Endpoint>, a: Endpoint, b: Endpoint)
    requires a in base && b in base
    ensures var merged := Merged(order, base);
            && a in merged && b in merged
            && (a in order && b in order ==> (Before(merged, a, b) <==> Before(order, a, b)))
            && (a in order && b !in order ==> Before(merged, a, b))
            && (a !in order && b !in order ==> (Before(merged, a, b) <==> Before(base, a, b)))
  {
    var existing := Select(order, base, true);
    var additions := Select(base, existing, false);
    PlacePlus(existing, additions, a);
    PlacePlus(existing, additions, b);
    if a in order && b in order {
      SelectBefore(order, base, true, a, b);
    } else if a !in order && b !in order {
      SelectBefore(base, existing, false, a, b);
    }
  }

  lemma MergedMerges(order: seq<Endpoint>, base: seq<Endpoint>)
    ensures Merges(order, base, Merged(order, base))
  {
    forall a, b | a in base && b in base
      ensures var merged := Merged(order, base);
              && (a in order && b in order ==> (Before(merged, a, b) <==> Before(order, a, b)))
              && (a in order && b !in order ==> Before(merged, a, b))
              && (a !in order && b !in order ==> (Before(merged, a, b) <==> Before(base, a, b)))
    {
      MergedPlaces(order, base, a, b);
    }
  }

  // ---- Advertisements ----

  /** The preferred candidate heads the merged order already. */
  lemma PreferredHeads(p: Pool, base: seq<Endpoint>)
    requires Inv(p) && Distinct(base) && (p.preferred.Some? ==> p.preferred.value in base)
    ensures KeepPreferred(p.preferred, Merged(p.order, base)) == Merged(p.order, base)
  {
    if p.preferred.Some? {
      var existing := Select(p.order, base, true);
      var merged := Merged(p.order, base);
      assert p.order[0] in base && existing[0] == p.order[0];
      DistinctPlus(existing, Select(base, existing, false));
      HeadKept(merged);
      assert [merged[0]] + merged[1..] == merged;
    }
  }

  lemma AdvertisedOrder(p: Pool, advertised: seq<Endpoint>)
    requires Inv(p) && advertised != []
    ensures var q := UpdateDiscovered(p, advertised);
            && q.seeds == p.seeds && q.preferred == p.preferred
            && q.discovered == Dedup(RetainPreferred(p.seeds, Select(Dedup(advertised), p.seeds, false), p.preferred))
            && q.order == Merged(p.order, Dedup(p.seeds + q.discovered))
  {
    PreferredHeads(p, Dedup(p.seeds + UpdateDiscovered(p, advertised).discovered));
  }

  /** Candidates that are neither seeds nor known come in the order in which they are first advertised. */
  lemma NewcomersBefore(p: Pool, advertised: seq<Endpoint>, a: Endpoint, b: Endpoint)
    requires Inv(p) && a in advertised && b in advertised && a !in p.order && b !in p.order
    ensures var listed := Select(Dedup(advertised), p.seeds, false);
            var discovered := Dedup(RetainPreferred(p.seeds, listed, p.preferred));
            && a in discovered && b in discovered
            && (Before(Dedup(p.seeds + discovered), a, b) <==> Before(advertised, a, b))
  {
    var listed := Select(Dedup(advertised), p.seeds, false);
    var retained := RetainPreferred(p.seeds, listed, p.preferred);
    var discovered := Dedup(retained);
    SelectBefore(Dedup(advertised), p.seeds, false, a, b);
    DedupBefore(advertised, a, b);
    if retained != listed {
      assert p.preferred.value in p.order;
      PlacePlus([p.preferred.value], listed, a);
      PlacePlus([p.preferred.value], listed, b);
    }
    DedupBefore(retained, a, b);
    PlacePlus(p.seeds, discovered, a);
    PlacePlus(p.seeds, discovered, b);
    DedupBefore(p.seeds + discovered, a, b);
  }

  /** The discovered set is in the order advertised, behind the preferred candidate where only that retains it. */
  lemma Listed(p: Pool, advertised: seq<Endpoint>)
    ensures var discovered := Dedup(RetainPreferred(p.seeds, Select(Dedup(advertised), p.seeds, false), p.preferred));
            && (forall e <- discovered :: e !in advertised ==> discovered[0] == e)
            && (forall a, b :: a in discovered && b in discovered && a in advertised && b in advertised ==>
                  (Before(discovered, a, b) <==> Before(advertised, a, b)))
  {
    var listed := Select(Dedup(advertised), p.seeds, false);
    var retained := RetainPreferred(p.seeds, listed, p.preferred);
    DedupDistinct(retained);
    forall a, b | a in retained && b in retained && a in advertised && b in advertised
      ensures Before(retained, a, b) <==> Before(advertised, a, b)
    {
      SelectBefore(Dedup(advertised), p.seeds, false, a, b);
      DedupBefore(advertised, a, b);
      if retained != listed {
        PlacePlus([p.preferred.value], listed, a);
        PlacePlus([p.preferred.value], listed, b);
      }
    }
  }

  /** A non-empty advertisement replaces the discovered set: what it names, less the seeds, and the preferred
      candidate besides. The order holds the seeds and the discovered ones: survivors in their order, then the
      newcomers in the order advertised. Seeds and preference stay. */
  lemma AdvertisedExactly(p: Pool, advertised: seq<Endpoint>)
    requires Inv(p) && advertised != []
    ensures var q := UpdateDiscovered(p, advertised);
            && q.seeds == p.seeds && q.preferred == p.preferred
            && (forall e :: e in q.discovered <==> e !in p.seeds && (e in advertised || p.preferred == Some(e)))
            && (forall a, b :: a in q.discovered && b in q.discovered && a in advertised && b in advertised ==>
                  (Before(q.discovered, a, b) <==> Before(advertised, a, b)))
            && (forall e <- q.discovered :: e !in advertised ==> q.discovered[0] == e)
            && (forall e :: e in q.order <==> e in p.seeds || e in q.discovered)
            && (forall a, b :: a in q.order && b in q.order && a in p.order && b in p.order ==>
                  (Before(q.order, a, b) <==> Before(p.order, a, b)))
            && (forall a, b :: a in q.order && b in q.order && a in p.order && b !in p.order ==> Before(q.order, a, b))
            && (forall a, b :: a in q.order && b in q.order && a !in p.order && b !in p.order ==>
                  (Before(q.order, a, b) <==> Before(advertised, a, b)))
  {
    var q := UpdateDiscovered(p, advertised);
    var base := Dedup(p.seeds + q.discovered);
    AdvertisedOrder(p, advertised);
    MergedMerges(p.order, base);
    Listed(p, advertised);
    forall a, b | a in q.order && b in q.order && a !in p.order && b !in p.order
      ensures Before(q.order, a, b) <==> Before(advertised, a, b)
    {
      NewcomersBefore(p, advertised, a, b);
    }
  }

  lemma EmptyAdvertisement(p: Pool)
    ensures UpdateDiscovered(p, []) == p
  {
  }

  // ---- Successes and failures ----

  lemma KeptBefore(preferred: Endpoint, order: seq<Endpoint>, a: Endpoint, b: Endpoint)
    requires a in order && b in order && a != preferred && b != preferred
    ensures var kept := KeepPreferred(Some(preferred), order); a in kept && b in kept && (Before(kept, a, b) <==> Before(order, a, b))
  {
    var others := Select(order, [preferred], false);
    SelectBefore(order, [preferred], false, a, b);
    PlacePlus([preferred], others, a);
    PlacePlus([preferred], others, b);
  }

  lemma ConnectedOrder(p: Pool, endpoint: Endpoint)
    requires Inv(p)
    ensures var q := Connected(p, endpoint);
            && q.seeds == p.seeds && q.preferred == Some(endpoint)
            && q.discovered == (if endpoint in p.seeds || endpoint in p.discovered then [] else [endpoint]) + p.discovered
            && q.order == KeepPreferred(Some(endpoint), Merged(p.order, Dedup(p.seeds + q.discovered)))
  {
    DedupDistinct(RetainPreferred(p.seeds, p.discovered, Some(endpoint)));
  }

  /** A success makes the endpoint the preferred one and the next to dial, known or not, and changes nothing else. */
  lemma ConnectedExactly(p: Pool, endpoint: Endpoint)
    requires Inv(p)
    ensures var q := Connected(p, endpoint);
            && q.seeds == p.seeds && q.preferred == Some(endpoint) && q.order != [] && q.order[0] == endpoint
            && q.discovered == (if endpoint in p.seeds || endpoint in p.discovered then [] else [endpoint]) + p.discovered
            && (forall e :: e in q.order <==> e in p.order || e == endpoint)
            && (forall a, b :: a in p.order && b in p.order && a != endpoint && b != endpoint ==>
                  (Before(q.order, a, b) <==> Before(p.order, a, b)))
  {
    var q := Connected(p, endpoint);
    var merged := Merged(p.order, Dedup(p.seeds + q.discovered));
    ConnectedOrder(p, endpoint);
    MergedMerges(p.order, Dedup(p.seeds + q.discovered));
    forall a, b | a in p.order && b in p.order && a != endpoint && b != endpoint
      ensures Before(q.order, a, b) <==> Before(p.order, a, b)
    {
      KeptBefore(endpoint, merged, a, b);
    }
  }

  /** A failure puts a known endpoint last, keeps the others in order, and ends its preference. */
  lemma FailedExactly(p: Pool, endpoint: Endpoint)
    requires Inv(p)
    ensures var q := Failed(p, endpoint);
            && q.seeds == p.seeds && q.discovered == p.discovered
            && q.preferred == (if p.preferred == Some(endpoint) then None else p.preferred)
            && (forall e :: e in q.order <==> e in p.order)
            && (endpoint in p.order ==> q.order[|q.order| - 1] == endpoint)
            && (forall a, b :: a in p.order && b in p.order && a != endpoint && b != endpoint ==>
                  (Before(q.order, a, b) <==> Before(p.order, a, b)))
  {
    FailedExact(p, endpoint);
    var others := Select(p.order, [endpoint], false);
    forall a, b | a in p.order && b in p.order && a != endpoint && b != endpoint
      ensures Before(Failed(p, endpoint).order, a, b) <==> Before(p.order, a, b)
    {
      SelectBefore(p.order, [endpoint], false, a, b);
      if endpoint in p.order {
        PlacePlus(others, [endpoint], a);
        PlacePlus(others, [endpoint], b);
      }
    }
  }

  lemma CreatedExactly(seeds: seq<Endpoint>)
    ensures var p := Create(seeds);
            && p.order == p.seeds && Distinct(p.seeds) && p.discovered == [] && p.preferred.None?
            && (forall e :: e in p.seeds <==> e in seeds)
            && (forall a, b :: a in seeds && b in seeds ==> (Before(p.seeds, a, b) <==> Before(seeds, a, b)))
  {
    forall a, b | a in seeds && b in seeds ensures Before(Create(seeds).seeds, a, b) <==> Before(seeds, a, b) {
      DedupBefore(seeds, a, b);
    }
  }
}
