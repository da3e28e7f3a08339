/** The zone catalogue (internal/selprovider/zone_fetcher.go): one paginated zone
    listing, or one per domain filter with the results concatenated. */
module ZoneFetcher {
  import opened Wrappers
  import opened DomainsApi
  import opened Pagination

  /** The paginated listing of zones for `options`. */
  function ListZones(api: Api, options: Query, fuel: nat): Fetched<Zone>
    requires Bounded(api, fuel)
  {
    assert ZonesEnd(api, FirstPage(options), fuel);
    Paginate(api.listZones, ZonesResource, FirstPage(options), fuel)
  }

  /** The listing for each domain filter, carrying `filter=<f>`, in filter order. */
  function FilterListings(api: Api, filters: seq<string>, fuel: nat): (r: seq<Fetched<Zone>>)
    requires Bounded(api, fuel)
    ensures |r| == |filters|
  {
    if filters == [] then []
    else FilterListings(api, filters[..|filters| - 1], fuel) + [ListZones(api, map["filter" := filters[|filters| - 1]], fuel)]
  }

  lemma {:induction false} FilterListingsAt(api: Api, filters: seq<string>, fuel: nat)
    requires Bounded(api, fuel)
    ensures forall i :: 0 <= i < |filters| ==>
      FilterListings(api, filters, fuel)[i] == ListZones(api, map["filter" := filters[i]], fuel)
    decreases |filters|
  {
    if filters != [] {
      var init := filters[..|filters| - 1];
      FilterListingsAt(api, init, fuel);
      assert forall i :: 0 <= i < |init| ==> init[i] == filters[i];
    }
  }

  lemma FilterListingAt(api: Api, filters: seq<string>, i: nat, fuel: nat)
    requires Bounded(api, fuel) && i < |filters|
    ensures FilterListings(api, filters, fuel)[i] == ListZones(api, map["filter" := filters[i]], fuel)
  {
    FilterListingsAt(api, filters, fuel);
  }

  lemma {:induction false} FilterListingsPrefix(api: Api, filters: seq<string>, k: nat, fuel: nat)
    requires Bounded(api, fuel) && k <= |filters|
    ensures FilterListings(api, filters, fuel)[..k] == FilterListings(api, filters[..k], fuel)
  {
    FilterListingsAt(api, filters, fuel);
    FilterListingsAt(api, filters[..k], fuel);
  }

  /** One listing per filter, run in filter order and concatenated; the first
      failing filter ends the fan-out with its error. */
  function PerFilter(api: Api, filters: seq<string>, fuel: nat): Fetched<Zone>
    requires Bounded(api, fuel)
  {
    Concat(FilterListings(api, filters, fuel))
  }

  lemma {:induction false} FilterListingsAppend(api: Api, a: seq<string>, b: seq<string>, fuel: nat)
    requires Bounded(api, fuel)
    ensures FilterListings(api, a + b, fuel) == FilterListings(api, a, fuel) + FilterListings(api, b, fuel)
    decreases |b|
  {
    if b == [] {
      assert a + b == a;
    } else {
      var init := b[..|b| - 1];
      assert (a + b)[..|a + b| - 1] == a + init;
      assert (a + b)[|a + b| - 1] == b[|b| - 1];
      FilterListingsAppend(api, a, init, fuel);
    }
  }

  /** Fanning out over `a + b` is fanning out over `a`, then, unless that failed,
      over `b`: filters are handled in order and their zones concatenated. */
  lemma PerFilterAppend(api: Api, a: seq<string>, b: seq<string>, fuel: nat)
    requires Bounded(api, fuel)
    ensures var fa := PerFilter(api, a, fuel);
      PerFilter(api, a + b, fuel)
        == if fa.result.Err? then fa else Then(fa.calls, fa.result.value, PerFilter(api, b, fuel))
  {
    FilterListingsAppend(api, a, b, fuel);
    ConcatAppend(FilterListings(api, a, fuel), FilterListings(api, b, fuel));
  }

  /** The fan-out succeeds exactly when every filter's listing succeeds. */
  lemma PerFilterOkIff(api: Api, filters: seq<string>, fuel: nat)
    requires Bounded(api, fuel)
    ensures PerFilter(api, filters, fuel).result.Ok?
      <==> forall j :: 0 <= j < |filters| ==> ListZones(api, map["filter" := filters[j]], fuel).result.Ok?
  {
    ConcatOkIff(FilterListings(api, filters, fuel));
    FilterListingsAt(api, filters, fuel);
  }

  /** The first failing filter decides the outcome: its error, verbatim, after
      the requests of the filters before it and its own. */
  lemma PerFilterFirstFailure(api: Api, filters: seq<string>, k: nat, fuel: nat)
    requires Bounded(api, fuel) && k < |filters|
    requires forall j :: 0 <= j < k ==> ListZones(api, map["filter" := filters[j]], fuel).result.Ok?
    requires ListZones(api, map["filter" := filters[k]], fuel).result.Err?
    ensures var fk := ListZones(api, map["filter" := filters[k]], fuel);
      && PerFilter(api, filters, fuel).result == fk.result
      && PerFilter(api, filters, fuel).calls == PerFilter(api, filters[..k], fuel).calls + fk.calls
  {
    var fs := FilterListings(api, filters, fuel);
    FilterListingsAt(api, filters, fuel);
    ConcatFirstFailure(fs, k);
    FilterListingsPrefix(api, filters, k, fuel);
  }

  /** Every request of the listing for filter `filter` lists zones with exactly
      `filter=<filter>`, `limit=1000` and a paging offset. */
  lemma FilterRequests(api: Api, filter: string, fuel: nat)
    requires Bounded(api, fuel)
    ensures forall c :: c in ListZones(api, map["filter" := filter], fuel).calls ==>
      && c.List? && c.resource == ZonesResource
      && c.query.Keys == {"filter", "limit", "offset"}
      && c.query["filter"] == filter && c.query["limit"] == "1000"
  {
    var q := FirstPage(map["filter" := filter]);
    assert q.Keys == {"filter", "limit", "offset"};
    assert "filter" in q && q["filter"] == filter;
    assert ZonesEnd(api, q, fuel);
    PaginateKeepsOptions(api.listZones, ZonesResource, q, fuel);
    var calls := ListZones(api, map["filter" := filter], fuel).calls;
    forall c | c in calls
      ensures c.List? && c.resource == ZonesResource && c.query.Keys == {"filter", "limit", "offset"}
      ensures c.query["filter"] == filter && c.query["limit"] == "1000"
    {
      var i :| 0 <= i < |calls| && calls[i] == c;
    }
  }

  /** Every request of the fan-out lists zones with `limit=1000`, a paging offset
      and the `filter` of one of the domain filters, and nothing else. */
  lemma PerFilterRequests(api: Api, filters: seq<string>, fuel: nat)
    requires Bounded(api, fuel)
    ensures forall c :: c in PerFilter(api, filters, fuel).calls ==>
      && c.List? && c.resource == ZonesResource
      && c.query.Keys == {"filter", "limit", "offset"}
      && c.query["filter"] in filters && c.query["limit"] == "1000"
  {
    var fs := FilterListings(api, filters, fuel);
    ConcatCalls(fs);
    forall c | c in PerFilter(api, filters, fuel).calls
      ensures c.List? && c.resource == ZonesResource && c.query.Keys == {"filter", "limit", "offset"}
      ensures c.query["filter"] in filters && c.query["limit"] == "1000"
    {
      var j :| 0 <= j < |fs| && c in fs[j].calls;
      FilterListingAt(api, filters, j, fuel);
      FilterRequests(api, filters[j], fuel);
    }
  }

  /** Filters are not deduplicated: the same filter twice lists its zones twice. */
  lemma NoDeduplication(api: Api, filter: string, fuel: nat)
    requires Bounded(api, fuel)
    requires ListZones(api, map["filter" := filter], fuel).result.Ok?
    ensures var f := ListZones(api, map["filter" := filter], fuel);
      PerFilter(api, [filter, filter], fuel) == Fetched(f.calls + f.calls, Ok(f.result.value + f.result.value))
  {
    var f := ListZones(api, map["filter" := filter], fuel);
    var fs := FilterListings(api, [filter, filter], fuel);
    FilterListingsAt(api, [filter, filter], fuel);
    assert fs[..0] == [];
    ConcatNext(fs, 0, [], []);
    assert [] + f.calls == f.calls && [] + f.result.value == f.result.value;
    ConcatNext(fs, 1, f.calls, f.result.value);
    assert fs[..2] == fs;
  }

  /** What zoneFetcher.zones sends and returns. */
  function ZonesSpec(api: Api, domainFilters: seq<string>, fuel: nat): Fetched<Zone>
    requires Bounded(api, fuel)
  {
    if |domainFilters| == 0 then ListZones(api, map[], fuel) else PerFilter(api, domainFilters, fuel)
  }

  /** Without domain filters there is one listing: it starts at offset 0 with
      limit 1000, and no request carries a filter. */
  lemma NoFilterRequests(api: Api, fuel: nat)
    requires Bounded(api, fuel)
    ensures var f := ZonesSpec(api, [], fuel);
      && |f.calls| >= 1
      && f.calls[0] == List(ZonesResource, map["limit" := "1000", "offset" := "0"])
      && forall c :: c in f.calls ==>
           c.List? && c.resource == ZonesResource && c.query.Keys == {"limit", "offset"} && c.query["limit"] == "1000"
  {
    var q := FirstPage(map[]);
    assert q == map["limit" := "1000", "offset" := "0"];
    assert ZonesEnd(api, q, fuel);
    PaginateKeepsOptions(api.listZones, ZonesResource, q, fuel);
    var calls := ZonesSpec(api, [], fuel).calls;
    forall c | c in calls
      ensures c.List? && c.resource == ZonesResource && c.query.Keys == {"limit", "offset"} && c.query["limit"] == "1000"
    {
      var i :| 0 <= i < |calls| && calls[i] == c;
    }
  }

  /** fetchZones: pages through the zone list from offset 0 with limit 1000. */
  method FetchZones(client: Client, options: Query) returns (r: Result<seq<Zone>, Error>)
    requires client.Valid()
    modifies client
    ensures var f := ListZones(client.api, options, client.bound);
      r == f.result && client.log == old(client.log) + f.calls
  {
    var opts := options["limit" := PageLimit]["offset" := "0"];
    var zones: seq<Zone> := [];
    ghost var list := client.api.listZones;
    ghost var spec := ListZones(client.api, options, client.bound);
    ghost var fuel: nat := client.bound;
    ghost var sent: seq<Call> := [];
    assert ZonesEnd(client.api, opts, fuel);
    ThenNothing(spec);
    while true
      invariant EndsWithin(list, opts, fuel)
      invariant spec == Then(sent, zones, Paginate(list, ZonesResource, opts, fuel))
      invariant client.log == old(client.log) + sent
      decreases fuel
    {
      var zonesResponse := client.ListZones(opts);
      if zonesResponse.Err? {
        PaginateLast(list, ZonesResource, opts, fuel, sent, zones);
        return Err(zonesResponse.error);
      }
      var next := zonesResponse.value.nextOffset;
      if next == 0 {
        PaginateLast(list, ZonesResource, opts, fuel, sent, zones);
      } else {
        PaginateStep(list, ZonesResource, opts, fuel, sent, zones);
      }
      zones := zones + zonesResponse.value.items;
      sent := sent + [List(ZonesResource, opts)];
      opts := AtOffset(opts, next);
      if next == 0 {
        break;
      }
      fuel := fuel - 1;
    }
    return Ok(zones);
  }

  /** zoneFetcher.zones: without domain filters a single listing; with them, one
      listing per filter carrying `filter=<f>`, concatenated in filter order. */
  method Zones(client: Client, domainFilters: seq<string>) returns (r: Result<seq<Zone>, Error>)
    requires client.Valid()
    modifies client
    ensures var f := ZonesSpec(client.api, domainFilters, client.bound);
      r == f.result && client.log == old(client.log) + f.calls
  {
    if |domainFilters| == 0 {
      r := FetchZones(client, map[]);
    } else {
      r := ZonesPerFilter(client, domainFilters);
    }
  }

  /** The fan-out of zoneFetcher.zones over the domain filters. */
  method ZonesPerFilter(client: Client, domainFilters: seq<string>) returns (r: Result<seq<Zone>, Error>)
    requires client.Valid()
    modifies client
    ensures var f := PerFilter(client.api, domainFilters, client.bound);
      r == f.result && client.log == old(client.log) + f.calls
  {
    hide FilterListings;
    ghost var listings := FilterListings(client.api, domainFilters, client.bound);
    var result: seq<Zone> := [];
    ghost var sent: seq<Call> := [];
    assert listings[..0] == [];
    var i := 0;
    while i < |domainFilters|
      invariant 0 <= i <= |domainFilters|
      invariant Concat(listings[..i]) == Fetched(sent, Ok(result))
      invariant client.log == old(client.log) + sent
    {
      ConcatNext(listings, i, sent, result);
      var zones := FetchFilterZones(client, domainFilters, i);
      if zones.Err? {
        return Err(zones.error);
      }
      sent := sent + listings[i].calls;
      result := result + zones.value;
      i := i + 1;
    }
    assert listings[..i] == listings;
    return Ok(result);
  }

  /** One pass of the loop in zoneFetcher.zones: the listing for filter `i`. */
  method FetchFilterZones(client: Client, filters: seq<string>, i: nat) returns (zones: Result<seq<Zone>, Error>)
    requires client.Valid() && i < |filters|
    modifies client
    ensures var f := FilterListings(client.api, filters, client.bound)[i];
      zones == f.result && client.log == old(client.log) + f.calls
  {
    FilterListingAt(client.api, filters, i, client.bound);
    zones := FetchZones(client, map["filter" := filters[i]]);
  }
}
