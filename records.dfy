/** The listing side of the provider (internal/selprovider/records.go): every zone's
    record sets turned into endpoints, one per record item. The worker pool is a
    sequential loop over the zones followed by the loop that drains the results. */
module Records {
  import opened Wrappers
  import opened ExternalDns
  import opened DomainsApi
  import opened Pagination
  import opened ZoneFetcher
  import opened RRSetFetcher

  /** The provider's configuration as far as this model uses it. */
  datatype Provider = Provider(domainFilters: seq<string>, dryRun: bool, workers: int)

  /** One endpoint per record item of `rrSet`, in item order. */
  function ItemEndpoints(rrSet: RRSet): (r: seq<EndpointData>)
    ensures |r| == |rrSet.records|
    ensures forall i :: 0 <= i < |r| ==>
      r[i] == NewEndpointWithTTL(rrSet.name, rrSet.recordType, rrSet.ttl, rrSet.records[i].content)
  {
    seq(|rrSet.records|, i requires 0 <= i < |rrSet.records| =>
      NewEndpointWithTTL(rrSet.name, rrSet.recordType, rrSet.ttl, rrSet.records[i].content))
  }

  /** collectEndPoints, as a flat map: the endpoints of every supported record set,
      in record-set order; record sets of other types contribute nothing. */
  function EndpointsOf(supported: string -> bool, rrSets: seq<RRSet>): seq<EndpointData>
  {
    if rrSets == [] then []
    else
      var last := rrSets[|rrSets| - 1];
      EndpointsOf(supported, rrSets[..|rrSets| - 1]) + (if supported(last.recordType) then ItemEndpoints(last) else [])
  }

  /** The number of record items over the supported record sets. */
  function SupportedItems(supported: string -> bool, rrSets: seq<RRSet>): nat
  {
    if rrSets == [] then 0
    else (if supported(rrSets[0].recordType) then |rrSets[0].records| else 0) + SupportedItems(supported, rrSets[1..])
  }

  /** The endpoints of `a + b` are those of `a` followed by those of `b`. */
  lemma {:induction false} EndpointsOfAppend(supported: string -> bool, a: seq<RRSet>, b: seq<RRSet>)
    ensures EndpointsOf(supported, a + b) == EndpointsOf(supported, a) + EndpointsOf(supported, b)
    decreases |b|
  {
    hide ItemEndpoints;
    if b == [] {
      assert a + b == a;
    } else {
      var init := b[..|b| - 1];
      var last := b[|b| - 1];
      assert (a + b)[..|a + b| - 1] == a + init;
      assert (a + b)[|a + b| - 1] == last;
      EndpointsOfAppend(supported, a, init);
      var tail := if supported(last.recordType) then ItemEndpoints(last) else [];
      assert EndpointsOf(supported, b) == EndpointsOf(supported, init) + tail;
      assert EndpointsOf(supported, a + b) == EndpointsOf(supported, a + init) + tail;
    }
  }

  /** There is one endpoint per record item of each supported record set. */
  lemma {:induction false} EndpointsOfCount(supported: string -> bool, rrSets: seq<RRSet>)
    ensures |EndpointsOf(supported, rrSets)| == SupportedItems(supported, rrSets)
    decreases |rrSets|
  {
    if rrSets != [] {
      EndpointsOfAppend(supported, [rrSets[0]], rrSets[1..]);
      assert [rrSets[0]] + rrSets[1..] == rrSets;
      assert [rrSets[0]][..0] == [];
      EndpointsOfCount(supported, rrSets[1..]);
    }
  }

  /** `e` is the endpoint of item `j` of record set `i`, a set of a supported type:
      it carries the set's name without its trailing dot, its type and TTL, and the
      item's content, without its trailing dot, as its single target. */
  predicate ItemOrigin(supported: string -> bool, rrSets: seq<RRSet>, i: int, j: int, e: EndpointData)
  {
    && 0 <= i < |rrSets| && 0 <= j < |rrSets[i].records|
    && supported(rrSets[i].recordType)
    && e.dnsName + "." == EnsureTrailingDot(rrSets[i].name)
    && e.recordType == rrSets[i].recordType && e.ttl == rrSets[i].ttl
    && |e.targets| == 1 && e.targets[0] + "." == EnsureTrailingDot(rrSets[i].records[j].content)
  }

  /** Every endpoint comes from one item of a supported record set. */
  lemma {:induction false} EndpointsOfOrigin(supported: string -> bool, rrSets: seq<RRSet>)
    ensures forall e :: e in EndpointsOf(supported, rrSets) ==>
      exists i, j :: ItemOrigin(supported, rrSets, i, j, e)
    decreases |rrSets|
  {
    hide NewEndpointWithTTL, EnsureTrailingDot, TrimTrailingDot;
    if rrSets != [] {
      var init := rrSets[..|rrSets| - 1];
      var last := rrSets[|rrSets| - 1];
      EndpointsOfOrigin(supported, init);
      forall e | e in EndpointsOf(supported, rrSets)
        ensures exists i, j :: ItemOrigin(supported, rrSets, i, j, e)
      {
        if e in EndpointsOf(supported, init) {
          var i, j :| ItemOrigin(supported, init, i, j, e);
          assert rrSets[i] == init[i];
          assert ItemOrigin(supported, rrSets, i, j, e);
        } else {
          var j :| 0 <= j < |last.records| && ItemEndpoints(last)[j] == e;
          assert ItemOrigin(supported, rrSets, |rrSets| - 1, j, e);
        }
      }
    }
  }

  /** A record set of an unsupported type is dropped without trace. */
  lemma UnsupportedDropped(supported: string -> bool, a: seq<RRSet>, rrSet: RRSet, b: seq<RRSet>)
    requires !supported(rrSet.recordType)
    ensures EndpointsOf(supported, a + [rrSet] + b) == EndpointsOf(supported, a + b)
  {
    EndpointsOfAppend(supported, a + [rrSet], b);
    EndpointsOfAppend(supported, a, b);
    assert (a + [rrSet])[..|a + [rrSet]| - 1] == a;
  }

  /** collectEndPoints: a nested loop over the record sets and their items. */
  method CollectEndPoints(supported: string -> bool, rrSets: seq<RRSet>) returns (endpoints: seq<EndpointData>)
    ensures endpoints == EndpointsOf(supported, rrSets)
  {
    hide NewEndpointWithTTL, EnsureTrailingDot, TrimTrailingDot;
    endpoints := [];
    for i := 0 to |rrSets|
      invariant endpoints == EndpointsOf(supported, rrSets[..i])
    {
      assert rrSets[..i + 1][..i] == rrSets[..i];
      var rrSet := rrSets[i];
      if supported(rrSet.recordType) {
        ghost var before := endpoints;
        for j := 0 to |rrSet.records|
          invariant endpoints == before + ItemEndpoints(rrSet)[..j]
        {
          assert ItemEndpoints(rrSet)[..j + 1] == ItemEndpoints(rrSet)[..j] + [ItemEndpoints(rrSet)[j]];
          endpoints := endpoints + [NewEndpointWithTTL(rrSet.name, rrSet.recordType, rrSet.ttl, rrSet.records[j].content)];
        }
        assert ItemEndpoints(rrSet)[..|rrSet.records|] == ItemEndpoints(rrSet);
      } else {
        assert endpoints + [] == endpoints;
      }
    }
    assert rrSets[..|rrSets|] == rrSets;
  }

  /** processZoneRRSets: all record sets of one zone, as endpoints, or the fetch's error. */
  function ZoneEndpoints(api: Api, supported: string -> bool, zoneId: string, fuel: nat): Fetched<EndpointData>
    requires Bounded(api, fuel)
  {
    var f := ListRRSets(api, zoneId, map[], fuel);
    Fetched(f.calls, if f.result.Err? then Err(f.result.error) else Ok(EndpointsOf(supported, f.result.value)))
  }

  method ProcessZoneRRSets(client: Client, supported: string -> bool, zoneId: string)
    returns (r: Result<seq<EndpointData>, Error>)
    requires client.Valid()
    modifies client
    ensures var z := ZoneEndpoints(client.api, supported, zoneId, client.bound);
      r == z.result && client.log == old(client.log) + z.calls
  {
    var rrSets := FetchRecords(client, zoneId, map[]);
    if rrSets.Err? {
      return Err(rrSets.error);
    }
    var endpoints := CollectEndPoints(supported, rrSets.value);
    return Ok(endpoints);
  }

  /** The first error of `before` and `next`, otherwise their endpoints concatenated. */
  function Combine(before: Result<seq<EndpointData>, Error>, next: Result<seq<EndpointData>, Error>)
    : Result<seq<EndpointData>, Error>
  {
    if before.Err? then before
    else if next.Err? then Err(next.error)
    else Ok(before.value + next.value)
  }

  /** Every zone's outcome, in zone order. */
  function ZoneResults(api: Api, supported: string -> bool, zones: seq<Zone>, fuel: nat): (r: seq<Fetched<EndpointData>>)
    requires Bounded(api, fuel)
    ensures |r| == |zones|
  {
    if zones == [] then []
    else ZoneResults(api, supported, zones[..|zones| - 1], fuel) + [ZoneEndpoints(api, supported, zones[|zones| - 1].id, fuel)]
  }

  lemma {:induction false} ZoneResultsAll(api: Api, supported: string -> bool, zones: seq<Zone>, fuel: nat)
    requires Bounded(api, fuel)
    ensures forall k :: 0 <= k < |zones| ==>
      ZoneResults(api, supported, zones, fuel)[k] == ZoneEndpoints(api, supported, zones[k].id, fuel)
    decreases |zones|
  {
    if zones != [] {
      var init := zones[..|zones| - 1];
      ZoneResultsAll(api, supported, init, fuel);
      assert forall k :: 0 <= k < |init| ==> init[k] == zones[k];
    }
  }

  lemma ZoneResultsAt(api: Api, supported: string -> bool, zones: seq<Zone>, k: nat, fuel: nat)
    requires Bounded(api, fuel) && k < |zones|
    ensures ZoneResults(api, supported, zones, fuel)[k] == ZoneEndpoints(api, supported, zones[k].id, fuel)
  {
    ZoneResultsAll(api, supported, zones, fuel);
  }

  /** Outcomes gathered one after another: all their requests in order, and the
      first error or all endpoints in order. */
  function Gather(results: seq<Fetched<EndpointData>>): Fetched<EndpointData>
  {
    if results == [] then Fetched([], Ok([]))
    else
      var before := Gather(results[..|results| - 1]);
      var last := results[|results| - 1];
      Fetched(before.calls + last.calls, Combine(before.result, last.result))
  }

  lemma GatherNext(results: seq<Fetched<EndpointData>>, i: nat)
    requires i < |results|
    ensures var before := Gather(results[..i]);
      Gather(results[..i + 1]) == Fetched(before.calls + results[i].calls, Combine(before.result, results[i].result))
  {
    assert results[..i + 1][..i] == results[..i];
  }

  /** The worker pass over `zones` and the drain after it. Every zone's record sets
      are listed, in zone order, whatever happened to the zones before it; the
      outcome is the first zone's error, otherwise all endpoints in zone order. */
  function ZoneRecords(api: Api, supported: string -> bool, zones: seq<Zone>, fuel: nat): Fetched<EndpointData>
    requires Bounded(api, fuel)
  {
    Gather(ZoneResults(api, supported, zones, fuel))
  }

  /** The drain loop: the first error in queue order, otherwise every endpoint list
      concatenated in that order. */
  function Drain(outcomes: seq<Result<seq<EndpointData>, Error>>): Result<seq<EndpointData>, Error>
  {
    if outcomes == [] then Ok([]) else Combine(Drain(outcomes[..|outcomes| - 1]), outcomes[|outcomes| - 1])
  }

  /** Once an error has been drained, the outcomes after it are never looked at. */
  lemma {:induction false} DrainStops(outcomes: seq<Result<seq<EndpointData>, Error>>, k: nat)
    requires k <= |outcomes| && Drain(outcomes[..k]).Err?
    ensures Drain(outcomes) == Drain(outcomes[..k])
    decreases |outcomes|
  {
    if k < |outcomes| {
      var init := outcomes[..|outcomes| - 1];
      assert init[..k] == outcomes[..k];
      DrainStops(init, k);
    } else {
      assert outcomes[..k] == outcomes;
    }
  }

  /** After the first `i` outcomes drained to `items`, outcome `i` either adds its
      endpoints or ends the drain with its error. */
  lemma DrainNext(outcomes: seq<Result<seq<EndpointData>, Error>>, i: nat, items: seq<EndpointData>)
    requires i < |outcomes| && Drain(outcomes[..i]) == Ok(items)
    ensures outcomes[i].Ok? ==> Drain(outcomes[..i + 1]) == Ok(items + outcomes[i].value)
    ensures outcomes[i].Err? ==> Drain(outcomes) == Err(outcomes[i].error)
  {
    assert outcomes[..i + 1][..i] == outcomes[..i];
    if outcomes[i].Err? {
      DrainStops(outcomes, i + 1);
    }
  }

  /** The requests of every outcome are among the gathered ones. */
  lemma {:induction false} GatherHasCalls(results: seq<Fetched<EndpointData>>, k: nat)
    requires k < |results|
    ensures forall c :: c in results[k].calls ==> c in Gather(results).calls
    decreases |results|
  {
    var init := results[..|results| - 1];
    if k < |init| {
      GatherHasCalls(init, k);
      assert init[k] == results[k];
    }
  }

  /** Outcome `k` is the first failing one, and it fails with `error`. */
  predicate FirstFailure(results: seq<Fetched<EndpointData>>, k: int, error: Error)
  {
    && 0 <= k < |results|
    && results[k].result == Err(error)
    && forall j :: 0 <= j < k ==> results[j].result.Ok?
  }

  /** Gathering fails exactly when some outcome failed, with the first failure's error. */
  lemma {:induction false} GatherFailsIff(results: seq<Fetched<EndpointData>>)
    ensures Gather(results).result.Err? <==> exists k :: 0 <= k < |results| && results[k].result.Err?
    ensures Gather(results).result.Err? ==> exists k :: FirstFailure(results, k, Gather(results).result.error)
    decreases |results|
  {
    if results != [] {
      var init := results[..|results| - 1];
      var n := |results| - 1;
      GatherFailsIff(init);
      assert forall k :: 0 <= k < |init| ==> init[k] == results[k];
      var before := Gather(init);
      if before.result.Err? {
        var k :| FirstFailure(init, k, before.result.error);
        assert FirstFailure(results, k, before.result.error);
      } else if results[n].result.Err? {
        assert FirstFailure(results, n, results[n].result.error);
      }
    }
  }

  /** Every endpoint of a successful gathering comes from one of the outcomes. */
  lemma {:induction false} GatherOkFrom(results: seq<Fetched<EndpointData>>)
    requires Gather(results).result.Ok?
    ensures forall e :: e in Gather(results).result.value ==>
      exists k :: 0 <= k < |results| && results[k].result.Ok? && e in results[k].result.value
    decreases |results|
  {
    if results != [] {
      var init := results[..|results| - 1];
      GatherOkFrom(init);
      forall e | e in Gather(results).result.value
        ensures exists k :: 0 <= k < |results| && results[k].result.Ok? && e in results[k].result.value
      {
        if e in Gather(init).result.value {
          var k :| 0 <= k < |init| && init[k].result.Ok? && e in init[k].result.value;
          assert results[k] == init[k];
        } else {
          assert results[|results| - 1].result.Ok? && e in results[|results| - 1].result.value;
        }
      }
    }
  }

  /** Every zone has its record sets listed from offset 0, even when an earlier
      zone failed: the workers drain the whole zone queue. */
  lemma ZoneRecordsListsEveryZone(api: Api, supported: string -> bool, zones: seq<Zone>, fuel: nat)
    requires Bounded(api, fuel)
    ensures forall k :: 0 <= k < |zones| ==>
      List(RRSetsResource(zones[k].id), FirstPage(map[])) in ZoneRecords(api, supported, zones, fuel).calls
  {
    var results := ZoneResults(api, supported, zones, fuel);
    forall k | 0 <= k < |zones|
      ensures List(RRSetsResource(zones[k].id), FirstPage(map[])) in Gather(results).calls
    {
      ZoneResultsAt(api, supported, zones, k, fuel);
      ListRRSetsRequests(api, zones[k].id, map[], fuel);
      GatherHasCalls(results, k);
    }
  }

  /** Zone `k` is the first zone whose record-set listing fails, and it fails with `error`. */
  predicate FirstFailingZone(api: Api, zones: seq<Zone>, k: int, fuel: nat, error: Error)
    requires Bounded(api, fuel)
  {
    && 0 <= k < |zones|
    && ListRRSets(api, zones[k].id, map[], fuel).result == Err(error)
    && forall j :: 0 <= j < k ==> ListRRSets(api, zones[j].id, map[], fuel).result.Ok?
  }

  /** The pass fails exactly when the record-set listing of some zone fails, and
      then with the error of the first such zone in zone order. */
  lemma ZoneRecordsFailsIff(api: Api, supported: string -> bool, zones: seq<Zone>, fuel: nat)
    requires Bounded(api, fuel)
    ensures var f := ZoneRecords(api, supported, zones, fuel);
      && (f.result.Err? <==> exists k :: 0 <= k < |zones| && ListRRSets(api, zones[k].id, map[], fuel).result.Err?)
      && (f.result.Err? ==> exists k :: FirstFailingZone(api, zones, k, fuel, f.result.error))
  {
    var results := ZoneResults(api, supported, zones, fuel);
    ZoneResultsAll(api, supported, zones, fuel);
    GatherFailsIff(results);
    var g := Gather(results);
    if g.result.Err? {
      var k :| FirstFailure(results, k, g.result.error);
      assert FirstFailingZone(api, zones, k, fuel, g.result.error);
    }
  }

  /** Endpoint `e` is item `j` of record set `i` in the listing of zone `k`. */
  predicate ZoneItemOrigin(api: Api, supported: string -> bool, zones: seq<Zone>, k: int, i: int, j: int, e: EndpointData, fuel: nat)
    requires Bounded(api, fuel)
  {
    && 0 <= k < |zones| && ListRRSets(api, zones[k].id, map[], fuel).result.Ok?
    && ItemOrigin(supported, ListRRSets(api, zones[k].id, map[], fuel).result.value, i, j, e)
  }

  /** Every endpoint of a successful pass is one item of a record set of a
      supported type listed in one of the zones. */
  lemma ZoneRecordsOrigin(api: Api, supported: string -> bool, zones: seq<Zone>, fuel: nat)
    requires Bounded(api, fuel) && ZoneRecords(api, supported, zones, fuel).result.Ok?
    ensures forall e :: e in ZoneRecords(api, supported, zones, fuel).result.value ==>
      exists k, i, j :: ZoneItemOrigin(api, supported, zones, k, i, j, e, fuel)
  {
    var results := ZoneResults(api, supported, zones, fuel);
    GatherOkFrom(results);
    forall e | e in Gather(results).result.value
      ensures exists k, i, j :: ZoneItemOrigin(api, supported, zones, k, i, j, e, fuel)
    {
      var k :| 0 <= k < |results| && results[k].result.Ok? && e in results[k].result.value;
      ZoneResultsAt(api, supported, zones, k, fuel);
      var rrSets := ListRRSets(api, zones[k].id, map[], fuel).result.value;
      EndpointsOfOrigin(supported, rrSets);
      var i, j :| ItemOrigin(supported, rrSets, i, j, e);
      assert ZoneItemOrigin(api, supported, zones, k, i, j, e, fuel);
    }
  }

  /** What Records sends and returns once it holds a client: the zones, then the
      worker pass over them, unless the zones could not be listed. */
  function RecordsWithClient(api: Api, fuel: nat, p: Provider, supported: string -> bool): Fetched<EndpointData>
    requires Bounded(api, fuel)
  {
    var z := ZonesSpec(api, p.domainFilters, fuel);
    if z.result.Err? then Fetched(z.calls, Err(z.result.error))
    else
      var zr := ZoneRecords(api, supported, z.result.value, fuel);
      Fetched(z.calls + zr.calls, zr.result)
  }

  /** What Records sends and returns, given the outcome of getting a token. */
  function RecordsSpec(api: Api, fuel: nat, p: Provider, token: Result<string, Error>, supported: string -> bool)
    : Fetched<EndpointData>
    requires Bounded(api, fuel)
  {
    if token.Err? then Fetched([], Err(token.error)) else RecordsWithClient(api, fuel, p, supported)
  }

  /** Without a token nothing is sent and the token's error is returned. */
  lemma RecordsTokenFailure(api: Api, fuel: nat, p: Provider, token: Result<string, Error>, supported: string -> bool)
    requires Bounded(api, fuel) && token.Err?
    ensures RecordsSpec(api, fuel, p, token, supported) == Fetched([], Err(token.error))
  {
  }

  /** When the zones cannot be listed, the zone listing's error is returned and no
      record set is asked for. */
  lemma RecordsZonesFailure(api: Api, fuel: nat, p: Provider, token: Result<string, Error>, supported: string -> bool)
    requires Bounded(api, fuel) && token.Ok? && ZonesSpec(api, p.domainFilters, fuel).result.Err?
    ensures var f := RecordsSpec(api, fuel, p, token, supported);
      && f.result == Err(ZonesSpec(api, p.domainFilters, fuel).result.error)
      && forall c :: c in f.calls ==> c.List? && c.resource == ZonesResource
  {
    if |p.domainFilters| == 0 {
      NoFilterRequests(api, fuel);
    } else {
      PerFilterRequests(api, p.domainFilters, fuel);
    }
  }

  /** The workers: every zone's record sets, one zone after another; the outcomes
      queue up in `outcomes`, the buffered result channel, in zone order. */
  method ProcessZones(client: Client, supported: string -> bool, zones: seq<Zone>)
    returns (outcomes: seq<Result<seq<EndpointData>, Error>>)
    requires client.Valid()
    modifies client
    ensures var f := ZoneRecords(client.api, supported, zones, client.bound);
      Drain(outcomes) == f.result && client.log == old(client.log) + f.calls
  {
    hide ZoneResults;
    ghost var results := ZoneResults(client.api, supported, zones, client.bound);
    outcomes := [];
    ghost var sent: seq<Call> := [];
    for i := 0 to |zones|
      invariant Gather(results[..i]) == Fetched(sent, Drain(outcomes))
      invariant client.log == old(client.log) + sent
    {
      var outcome, added := ProcessZoneAt(client, supported, zones, i, sent, outcomes);
      sent := sent + added;
      outcomes := outcomes + [outcome];
    }
    assert results[..|zones|] == results;
  }

  /** One zone taken from the queue by a worker, its outcome queued after the
      `outcomes` of the zones before it. */
  method ProcessZoneAt(client: Client, supported: string -> bool, zones: seq<Zone>, i: nat,
                       ghost sent: seq<Call>, ghost outcomes: seq<Result<seq<EndpointData>, Error>>)
    returns (outcome: Result<seq<EndpointData>, Error>, ghost added: seq<Call>)
    requires client.Valid() && i < |zones|
    requires Gather(ZoneResults(client.api, supported, zones, client.bound)[..i]) == Fetched(sent, Drain(outcomes))
    modifies client
    ensures Gather(ZoneResults(client.api, supported, zones, client.bound)[..i + 1])
      == Fetched(sent + added, Drain(outcomes + [outcome]))
    ensures client.log == old(client.log) + added
  {
    ghost var results := ZoneResults(client.api, supported, zones, client.bound);
    GatherNext(results, i);
    ZoneResultsAt(client.api, supported, zones, i, client.bound);
    outcome := ProcessZoneRRSets(client, supported, zones[i].id);
    added := results[i].calls;
    assert (outcomes + [outcome])[..|outcomes|] == outcomes;
  }

  /** The loop that drains the result channel: the first error ends it, otherwise
      every zone's endpoints are appended in order. */
  method DrainOutcomes(outcomes: seq<Result<seq<EndpointData>, Error>>) returns (r: Result<seq<EndpointData>, Error>)
    ensures r == Drain(outcomes)
  {
    var endpoints: seq<EndpointData> := [];
    assert outcomes[..0] == [];
    for i := 0 to |outcomes|
      invariant Drain(outcomes[..i]) == Ok(endpoints)
    {
      DrainNext(outcomes, i, endpoints);
      if outcomes[i].Err? {
        return Err(outcomes[i].error);
      }
      endpoints := endpoints + outcomes[i].value;
    }
    assert outcomes[..|outcomes|] == outcomes;
    return Ok(endpoints);
  }

  /** Records: a token, the zones, then every zone's record sets as endpoints. The
      worker pool runs as one worker taking the zones in order. */
  method Records(client: Client, p: Provider, token: Result<string, Error>, supported: string -> bool)
    returns (r: Result<seq<EndpointData>, Error>)
    requires client.Valid() && p.workers >= 1
    modifies client
    ensures var f := RecordsSpec(client.api, client.bound, p, token, supported);
      r == f.result && client.log == old(client.log) + f.calls
  {
    if token.Err? {
      return Err(token.error);
    }
    r := RecordsOfZones(client, p, supported);
  }

  /** Records after the token: the zones, then the workers and the drain. */
  method RecordsOfZones(client: Client, p: Provider, supported: string -> bool)
    returns (r: Result<seq<EndpointData>, Error>)
    requires client.Valid() && p.workers >= 1
    modifies client
    ensures var f := RecordsWithClient(client.api, client.bound, p, supported);
      r == f.result && client.log == old(client.log) + f.calls
  {
    hide ZonesSpec, ZoneRecords;
    var zones := Zones(client, p.domainFilters);
    if zones.Err? {
      return Err(zones.error);
    }
    r := RecordsOfZoneList(client, supported, zones.value);
  }

  /** The workers over `zones`, then the drain. */
  method RecordsOfZoneList(client: Client, supported: string -> bool, zones: seq<Zone>)
    returns (r: Result<seq<EndpointData>, Error>)
    requires client.Valid()
    modifies client
    ensures var f := ZoneRecords(client.api, supported, zones, client.bound);
      r == f.result && client.log == old(client.log) + f.calls
  {
    var outcomes := ProcessZones(client, supported, zones);
    r := DrainOutcomes(outcomes);
  }

  // ------------------------------------------------------------- listing example

  /** The record sets the test server holds for a zone: one A record set each in
      zones 1234 and 5678, nothing elsewhere. */
  function TestRRSets(zoneId: string): seq<RRSet>
  {
    if zoneId == "1234" then [RRSet("1234", "test.com.", "A", 300, [RecordItem("1.2.3.4")])]
    else if zoneId == "5678" then [RRSet("5678", "test2.com.", "A", 300, [RecordItem("5.6.7.8")])]
    else []
  }

  /** The test server: every listing is a single page; mutations succeed. */
  function TestApi(): Api
  {
    Api(
      q => Ok(Page([Zone("1234", "test.com"), Zone("5678", "test2.com")], 0)),
      zoneId => q => Ok(Page(TestRRSets(zoneId), 0)),
      (zoneId, rrSet) => None,
      (zoneId, rrSetId, rrSet) => None,
      (zoneId, rrSetId) => None)
  }

  /** Every listing of the test server ends on its first page. */
  lemma TestApiBounded()
    ensures Bounded(TestApi(), 1)
  {
    var api := TestApi();
    forall q
      ensures ZonesEnd(api, q, 1)
    {
      assert api.listZones(q).Ok? && api.listZones(q).value.nextOffset == 0;
    }
    forall zoneId, q
      ensures RRSetsEnd(api, zoneId, q, 1)
    {
      assert api.listRRSets(zoneId)(q).Ok? && api.listRRSets(zoneId)(q).value.nextOffset == 0;
    }
  }

  /** The endpoints of one zone of the test server: its record set's item, named
      without the trailing dot. */
  lemma TestZoneEndpoints(supported: string -> bool, zoneId: string, name: string, content: string)
    requires supported("A")
    requires zoneId == "1234" || zoneId == "5678"
    requires TestRRSets(zoneId) == [RRSet(zoneId, name + ".", "A", 300, [RecordItem(content)])]
    requires !HasTrailingDot(content)
    ensures Bounded(TestApi(), 1)
    ensures ZoneEndpoints(TestApi(), supported, zoneId, 1).result == Ok([EndpointData(name, "A", [content], 300)])
  {
    TestApiBounded();
    var api := TestApi();
    var rrSet := RRSet(zoneId, name + ".", "A", 300, [RecordItem(content)]);
    SinglePage(api.listRRSets(zoneId), RRSetsResource(zoneId), FirstPage(map[]), 1);
    assert ListRRSets(api, zoneId, map[], 1).result == Ok([rrSet]);
    var e := NewEndpointWithTTL(rrSet.name, "A", 300, content);
    assert e.dnsName + "." == name + ".";
    assert |e.dnsName| == |name|;
    assert e.dnsName == (e.dnsName + ".")[..|e.dnsName|] == (name + ".")[..|name|] == name;
    assert e == EndpointData(name, "A", [content], 300);
    assert ItemEndpoints(rrSet) == [e];
    assert [rrSet][..0] == [];
    assert EndpointsOf(supported, [rrSet]) == [e];
    assert ZoneEndpoints(api, supported, zoneId, 1).result == Ok([e]);
  }

  /** Two successful outcomes gather to their endpoints, in order. */
  lemma GatherTwo(rs: seq<Fetched<EndpointData>>, first: seq<EndpointData>, second: seq<EndpointData>)
    requires |rs| == 2 && rs[0].result == Ok(first) && rs[1].result == Ok(second)
    ensures Gather(rs).result == Ok(first + second)
  {
    assert rs[..0] == [] && rs[..2] == rs;
    GatherNext(rs, 0);
    assert Gather(rs[..1]).result == Ok([] + first) && [] + first == first;
    GatherNext(rs, 1);
  }

  /** Records against the test server, with a token, no domain filter and one
      worker: zones 1234 and 5678 list as the endpoints test.com and test2.com,
      each an A record with its one target and TTL 300. */
  lemma RecordsExample(supported: string -> bool, token: string)
    requires supported("A")
    ensures Bounded(TestApi(), 1)
    ensures RecordsSpec(TestApi(), 1, Provider([], false, 1), Ok(token), supported).result
      == Ok([EndpointData("test.com", "A", ["1.2.3.4"], 300), EndpointData("test2.com", "A", ["5.6.7.8"], 300)])
  {
    TestApiBounded();
    var api := TestApi();
    var zones := [Zone("1234", "test.com"), Zone("5678", "test2.com")];
    SinglePage(api.listZones, ZonesResource, FirstPage(map[]), 1);
    assert ZonesSpec(api, [], 1).result == Ok(zones);
    assert "test.com" + "." == "test.com." && "test2.com" + "." == "test2.com.";
    TestZoneEndpoints(supported, "1234", "test.com", "1.2.3.4");
    TestZoneEndpoints(supported, "5678", "test2.com", "5.6.7.8");
    hide Paginate, ListRRSets, ListZones, TestApi, TestRRSets, EndpointsOf;
    hide NewEndpointWithTTL, EnsureTrailingDot, TrimTrailingDot, HasTrailingDot;
    var rs := ZoneResults(api, supported, zones, 1);
    ZoneResultsAll(api, supported, zones, 1);
    var first := [EndpointData("test.com", "A", ["1.2.3.4"], 300)];
    var second := [EndpointData("test2.com", "A", ["5.6.7.8"], 300)];
    GatherTwo(rs, first, second);
    assert RecordsWithClient(api, 1, Provider([], false, 1), supported).result == Ok(first + second);
    assert first + second == [first[0], second[0]];
  }
}
