/** The pool of dial candidates (lib/endpoint.ml, Pool). */
module Pool {
  import opened Base
  import opened Endpoint

  datatype Pool = Pool(
    seeds: seq<Endpoint>,
    discovered: seq<Endpoint>,
    order: seq<Endpoint>,
    preferred: Option<Endpoint>)

  predicate Distinct(s: seq<Endpoint>) {
    forall i, j :: 0 <= i < j < |s| ==> s[i] != s[j]
  }

  // ---- List helpers ----

  /** The elements of `s` in (or, with `keep` false, out of) `among`, in order. */
  function Select(s: seq<Endpoint>, among: seq<Endpoint>, keep: bool): (r: seq<Endpoint>)
    ensures forall e :: e in r <==> e in s && (e in among) == keep
    ensures Distinct(s) ==> Distinct(r)
    ensures |r| <= |s|
  {
    if s == [] then []
    else
      var rest := Select(s[1..], among, keep);
      assert s == [s[0]] + s[1..];
      if (s[0] in among) == keep then
        assert Distinct(s) ==> s[0] !in s[1..];
        [s[0]] + rest
      else rest
  }

  /** Later repetitions removed. */
  function Dedup(s: seq<Endpoint>): (r: seq<Endpoint>)
    ensures Distinct(r) && forall e :: e in r <==> e in s
  {
    if s == [] then []
    else
      var init := Dedup(s[..|s| - 1]);
      assert s == s[..|s| - 1] + [s[|s| - 1]];
      if s[|s| - 1] in init then init else init + [s[|s| - 1]]
  }

  method Deduplicate(endpoints: seq<Endpoint>) returns (result: seq<Endpoint>)
    ensures result == Dedup(endpoints)
  {
    var seen: seq<Endpoint> := [];
    result := [];
    for i := 0 to |endpoints|
      invariant result == Dedup(endpoints[..i])
      invariant forall e :: e in seen <==> e in result
    {
      var endpoint := endpoints[i];
      assert endpoints[..i + 1][..i] == endpoints[..i];
      if endpoint !in seen {
        seen := [endpoint] + seen;
        result := result + [endpoint];
      }
    }
    assert endpoints[..|endpoints|] == endpoints;
  }

  lemma {:induction false} DedupDistinct(s: seq<Endpoint>)
    requires Distinct(s)
    ensures Dedup(s) == s
  {
    if s != [] {
      DedupDistinct(s[..|s| - 1]);
      assert s == s[..|s| - 1] + [s[|s| - 1]];
    }
  }

  lemma {:induction false} SelectAll(s: seq<Endpoint>, among: seq<Endpoint>, keep: bool)
    requires forall e <- s :: (e in among) == keep
    ensures Select(s, among, keep) == s
  {
    if s != [] {
      SelectAll(s[1..], among, keep);
    }
  }

  lemma {:induction false} SelectNone(s: seq<Endpoint>, among: seq<Endpoint>, keep: bool)
    requires forall e <- s :: (e in among) != keep
    ensures Select(s, among, keep) == []
  {
    if s != [] {
      SelectNone(s[1..], among, keep);
    }
  }

  // ---- Operations ----

  function RetainPreferred(seeds: seq<Endpoint>, discovered: seq<Endpoint>, preferred: Option<Endpoint>): seq<Endpoint> {
    if preferred.Some? && preferred.value !in seeds && preferred.value !in discovered then [preferred.value] + discovered
    else discovered
  }

  function KeepPreferred(preferred: Option<Endpoint>, endpoints: seq<Endpoint>): seq<Endpoint> {
    if preferred.None? then endpoints else [preferred.value] + Select(endpoints, [preferred.value], false)
  }

  function RebuildOrder(p: Pool, advertised: seq<Endpoint>, preferred: Option<Endpoint>): Pool {
    var discovered := Dedup(RetainPreferred(p.seeds, advertised, preferred));
    var base := Dedup(p.seeds + discovered);
    var existing := Select(p.order, base, true);
    var additions := Select(base, existing, false);
    Pool(p.seeds, discovered, KeepPreferred(preferred, existing + additions), preferred)
  }

  function Create(seeds: seq<Endpoint>): Pool {
    Pool(Dedup(seeds), [], Dedup(seeds), None)
  }

  function UpdateDiscovered(p: Pool, advertised: seq<Endpoint>): Pool {
    if advertised == [] then p
    else RebuildOrder(p, Select(Dedup(advertised), p.seeds, false), p.preferred)
  }

  function Connected(p: Pool, endpoint: Endpoint): Pool {
    RebuildOrder(p, p.discovered, Some(endpoint))
  }

  function MoveToEnd(endpoint: Endpoint, endpoints: seq<Endpoint>): seq<Endpoint> {
    var remaining := Select(endpoints, [endpoint], false);
    if endpoint in endpoints then remaining + [endpoint] else remaining
  }

  function Failed(p: Pool, endpoint: Endpoint): Pool {
    var t := UpdateDiscovered(p, p.discovered);
    var sticky := endpoint in Dedup(t.seeds + t.discovered);
    var order := if sticky then MoveToEnd(endpoint, t.order) else Select(t.order, [endpoint], false);
    t.(order := order, preferred := if t.preferred == Some(endpoint) then None else t.preferred)
  }

  // ---- Invariant over every sequence of operations ----

  ghost predicate Inv(p: Pool) {
    && Distinct(p.seeds) && Distinct(p.discovered) && Distinct(p.order)
    && (forall e <- p.discovered :: e !in p.seeds)
    && (forall e :: e in p.order <==> e in p.seeds || e in p.discovered)
    && (p.preferred.Some? ==> p.order != [] && p.order[0] == p.preferred.value)
  }

  lemma DistinctPlus(a: seq<Endpoint>, b: seq<Endpoint>)
    requires Distinct(a) && Distinct(b) && forall e <- b :: e !in a
    ensures Distinct(a + b)
  {
    var s := a + b;
    forall i, j | 0 <= i < j < |s| ensures s[i] != s[j] {
      if i < |a| <= j {
        assert b[j - |a|] in b;
      }
    }
  }

  lemma RebuildKeeps(p: Pool, advertised: seq<Endpoint>, preferred: Option<Endpoint>)
    requires Inv(p) && forall e <- advertised :: e !in p.seeds
    ensures Inv(RebuildOrder(p, advertised, preferred))
  {
    var discovered := Dedup(RetainPreferred(p.seeds, advertised, preferred));
    var base := Dedup(p.seeds + discovered);
    var existing := Select(p.order, base, true);
    var additions := Select(base, existing, false);
    DistinctPlus(existing, additions);
    assert forall e :: e in base <==> e in p.seeds || e in discovered;
    assert forall e :: e in existing + additions <==> e in base;
    if preferred.Some? {
      DistinctPlus([preferred.value], Select(existing + additions, [preferred.value], false));
    }
  }

  datatype Step =
    | Advertise(endpoints: seq<Endpoint>)
    | Connect(endpoint: Endpoint)
    | Fail(endpoint: Endpoint)

  function Apply(p: Pool, step: Step): Pool {
    match step
    case Advertise(endpoints) => UpdateDiscovered(p, endpoints)
    case Connect(endpoint) => Connected(p, endpoint)
    case Fail(endpoint) => Failed(p, endpoint)
  }

  function Run(p: Pool, steps: seq<Step>): Pool
    decreases steps
  {
    if steps == [] then p else Run(Apply(p, steps[0]), steps[1..])
  }

  lemma UpdateKeeps(p: Pool, advertised: seq<Endpoint>)
    requires Inv(p)
    ensures Inv(UpdateDiscovered(p, advertised)) && UpdateDiscovered(p, advertised).seeds == p.seeds
  {
    if advertised != [] {
      RebuildKeeps(p, Select(Dedup(advertised), p.seeds, false), p.preferred);
    }
  }

  lemma OrderIdle(p: Pool, base: seq<Endpoint>)
    requires forall e :: e in p.order <==> e in base
    ensures Select(p.order, base, true) + Select(base, p.order, false) == p.order && Select(p.order, base, true) == p.order
  {
    SelectAll(p.order, base, true);
    SelectNone(base, p.order, false);
  }

  lemma PreferenceIdle(p: Pool)
    requires Distinct(p.order) && (p.preferred.Some? ==> p.order != [] && p.order[0] == p.preferred.value)
    ensures KeepPreferred(p.preferred, p.order) == p.order
  {
    if p.preferred.Some? {
      HeadKept(p.order);
      assert [p.order[0]] + p.order[1..] == p.order;
    }
  }

  /** Advertising the current set again changes nothing. */
  lemma UpdateIdle(p: Pool)
    requires Inv(p)
    ensures UpdateDiscovered(p, p.discovered) == p
  {
    if p.discovered != [] {
      DedupDistinct(p.discovered);
      SelectAll(p.discovered, p.seeds, false);
      assert RetainPreferred(p.seeds, p.discovered, p.preferred) == p.discovered;
      OrderIdle(p, Dedup(p.seeds + p.discovered));
      PreferenceIdle(p);
    }
  }

  lemma HeadKept(order: seq<Endpoint>)
    requires Distinct(order) && order != []
    ensures Select(order, [order[0]], false) == order[1..]
  {
    assert forall e <- order[1..] :: e != order[0];
    SelectAll(order[1..], [order[0]], false);
  }

  /** A failure moves the endpoint to the end and changes no candidate. */
  lemma FailedExact(p: Pool, endpoint: Endpoint)
    requires Inv(p)
    ensures Failed(p, endpoint) ==
            p.(order := MoveToEnd(endpoint, p.order), preferred := if p.preferred == Some(endpoint) then None else p.preferred)
    ensures Inv(Failed(p, endpoint))
  {
    UpdateIdle(p);
    var base := Dedup(p.seeds + p.discovered);
    assert forall e :: e in base <==> e in p.order;
    var remaining := Select(p.order, [endpoint], false);
    if endpoint in p.order {
      DistinctPlus(remaining, [endpoint]);
    }
    if p.preferred.Some? && p.preferred.value != endpoint {
      assert p.order == [p.order[0]] + p.order[1..];
    }
  }

  lemma StepKeeps(p: Pool, step: Step)
    requires Inv(p)
    ensures Inv(Apply(p, step)) && Apply(p, step).seeds == p.seeds
  {
    match step
    case Advertise(endpoints) => UpdateKeeps(p, endpoints);
    case Connect(endpoint) => RebuildKeeps(p, p.discovered, Some(endpoint));
    case Fail(endpoint) => FailedExact(p, endpoint);
  }

  /** Every pool reached from a seed list keeps the invariant and its seeds. */
  lemma {:induction false} RunKeeps(p: Pool, steps: seq<Step>)
    requires Inv(p)
    ensures Inv(Run(p, steps)) && Run(p, steps).seeds == p.seeds
    decreases steps
  {
    if steps != [] {
      StepKeeps(p, steps[0]);
      RunKeeps(Apply(p, steps[0]), steps[1..]);
    }
  }

  lemma Reachable(seeds: seq<Endpoint>, steps: seq<Step>)
    ensures Inv(Run(Create(seeds), steps)) && Run(Create(seeds), steps).seeds == Dedup(seeds)
  {
    RunKeeps(Create(seeds), steps);
  }

  // ---- Fairness ----

  /** Failing the first candidate rotates the order. */
  lemma FailHeadRotates(p: Pool)
    requires Inv(p) && p.order != []
    ensures Failed(p, p.order[0]).order == p.order[1..] + [p.order[0]]
    ensures Failed(p, p.order[0]).preferred.None?
  {
    FailedExact(p, p.order[0]);
    HeadKept(p.order);
  }

  function FailHeads(p: Pool, n: nat): Pool
    decreases n
  {
    if n == 0 || p.order == [] then p else FailHeads(Failed(p, p.order[0]), n - 1)
  }

  lemma Rotation(order: seq<Endpoint>, n: nat)
    requires 0 < n <= |order|
    ensures var once := order[1..] + [order[0]]; once[n - 1..] + once[..n - 1] == order[n..] + order[..n]
  {
    var once := order[1..] + [order[0]];
    assert once[n - 1..] == order[n..] + [order[0]];
    assert once[..n - 1] == order[1..n];
    assert order[..n] == [order[0]] + order[1..n];
  }

  lemma {:induction false} FailHeadsRotate(p: Pool, n: nat)
    requires Inv(p) && n <= |p.order|
    ensures FailHeads(p, n).order == p.order[n..] + p.order[..n]
    decreases n
  {
    if n > 0 {
      FailHeadRotates(p);
      FailedExact(p, p.order[0]);
      FailHeadsRotate(Failed(p, p.order[0]), n - 1);
      Rotation(p.order, n);
    }
  }

  /** As many failures as candidates dial each of them once, in order, and restore the order. */
  lemma FullRound(p: Pool)
    requires Inv(p)
    ensures forall k :: 0 <= k < |p.order| ==>
              FailHeads(p, k).order != [] && FailHeads(p, k).order[0] == p.order[k]
    ensures FailHeads(p, |p.order|).order == p.order
  {
    forall k | 0 <= k < |p.order|
      ensures FailHeads(p, k).order != [] && FailHeads(p, k).order[0] == p.order[k]
    {
      FailHeadsRotate(p, k);
    }
    FailHeadsRotate(p, |p.order|);
    assert p.order[|p.order|..] + p.order[..|p.order|] == p.order;
  }

  // ---- Fairness with advertisements in between ----

  /** The place of a candidate. */
  function Place(order: seq<Endpoint>, e: Endpoint): (k: nat)
    requires e in order
    ensures k < |order| && order[k] == e
  {
    if order[0] == e then 0 else 1 + Place(order[1..], e)
  }

  lemma {:induction false} PlaceIs(order: seq<Endpoint>, e: Endpoint, k: nat)
    requires Distinct(order) && k < |order| && order[k] == e
    ensures Place(order, e) == k
  {
    if k > 0 {
      PlaceIs(order[1..], e, k - 1);
    }
  }

  lemma {:induction false} SelectForward(s: seq<Endpoint>, among: seq<Endpoint>, e: Endpoint)
    requires e in s && e in among
    ensures e in Select(s, among, true) && Place(Select(s, among, true), e) <= Place(s, e)
  {
    if s[0] != e {
      SelectForward(s[1..], among, e);
    }
  }

  lemma {:induction false} PlacePrefix(a: seq<Endpoint>, b: seq<Endpoint>, e: Endpoint)
    requires e in a
    ensures Place(a + b, e) == Place(a, e)
  {
    if a[0] != e {
      assert (a + b)[1..] == a[1..] + b;
      PlacePrefix(a[1..], b, e);
    }
  }

  lemma MergeForward(order: seq<Endpoint>, base: seq<Endpoint>, e: Endpoint)
    requires e in order && e in base
    ensures var existing := Select(order, base, true);
            var merged := existing + Select(base, existing, false);
            e in merged && Place(merged, e) <= Place(order, e)
  {
    var existing := Select(order, base, true);
    SelectForward(order, base, e);
    PlacePrefix(existing, Select(base, existing, false), e);
  }

  /** An advertisement never moves a surviving candidate further back. */
  lemma AdvertiseForward(p: Pool, advertised: seq<Endpoint>, e: Endpoint)
    requires Inv(p) && e in p.order && e in UpdateDiscovered(p, advertised).order
    ensures Place(UpdateDiscovered(p, advertised).order, e) <= Place(p.order, e)
  {
    if advertised != [] {
      UpdateKeeps(p, advertised);
      var q := UpdateDiscovered(p, advertised);
      var base := Dedup(p.seeds + q.discovered);
      assert forall x :: x in base <==> x in q.order;
      var existing := Select(p.order, base, true);
      var additions := Select(base, existing, false);
      MergeForward(p.order, base, e);
      if p.preferred.Some? {
        assert p.order[0] in base;
        assert existing[0] == p.order[0];
        DistinctPlus(existing, additions);
        HeadKept(existing + additions);
        assert q.order == existing + additions;
      }
    }
  }

  datatype Event = FailHead | NewAdvertisement(endpoints: seq<Endpoint>)

  function ApplyEvent(p: Pool, event: Event): Pool {
    match event
    case FailHead => if p.order == [] then p else Failed(p, p.order[0])
    case NewAdvertisement(endpoints) => UpdateDiscovered(p, endpoints)
  }

  function Failures(events: seq<Event>): nat {
    if events == [] then 0 else (if events[0].FailHead? then 1 else 0) + Failures(events[1..])
  }

  /** The candidate is in the order at every point of the run. */
  ghost predicate Survives(p: Pool, events: seq<Event>, e: Endpoint)
    decreases events
  {
    e in p.order && (events != [] ==> Survives(ApplyEvent(p, events[0]), events[1..], e))
  }

  /** At some point of the run the candidate is the next one dialled. */
  ghost predicate Dialled(p: Pool, events: seq<Event>, e: Endpoint)
    decreases events
  {
    (p.order != [] && p.order[0] == e) || (events != [] && Dialled(ApplyEvent(p, events[0]), events[1..], e))
  }

  lemma RotateForward(order: seq<Endpoint>, e: Endpoint)
    requires Distinct(order) && e in order && order[0] != e
    ensures e in order[1..] + [order[0]] && Place(order[1..] + [order[0]], e) <= Place(order, e) - 1
  {
    PlaceIs(order[1..] + [order[0]], e, Place(order, e) - 1);
  }

  lemma FailForward(p: Pool, e: Endpoint)
    requires Inv(p) && e in p.order && p.order[0] != e
    ensures var q := Failed(p, p.order[0]); Inv(q) && e in q.order && Place(q.order, e) <= Place(p.order, e) - 1
  {
    FailHeadRotates(p);
    FailedExact(p, p.order[0]);
    RotateForward(p.order, e);
  }

  /** Each failure brings a candidate that is not first one place forward; no advertisement moves it back. */
  lemma EventForward(p: Pool, event: Event, e: Endpoint)
    requires Inv(p) && e in p.order && p.order[0] != e && e in ApplyEvent(p, event).order
    ensures Inv(ApplyEvent(p, event))
    ensures Place(ApplyEvent(p, event).order, e) <= Place(p.order, e) - (if event.FailHead? then 1 else 0)
  {
    match event
    case FailHead => FailForward(p, e);
    case NewAdvertisement(endpoints) =>
      UpdateKeeps(p, endpoints);
      AdvertiseForward(p, endpoints, e);
  }

  /** A candidate at place `i` is dialled within `i` failures, whatever is advertised in between. */
  lemma {:induction false} Fair(p: Pool, events: seq<Event>, e: Endpoint)
    requires Inv(p) && Survives(p, events, e) && Failures(events) >= Place(p.order, e)
    ensures Dialled(p, events, e)
    decreases events
  {
    if p.order[0] != e {
      EventForward(p, events[0], e);
      Fair(ApplyEvent(p, events[0]), events[1..], e);
    }
  }
}
