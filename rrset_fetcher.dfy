/** Record-set lookups (internal/selprovider/rrset_fetcher.go): the paginated
    listing of one zone's record sets, and the resolution of an update or delete
    to the zone and record set it targets. */
module RRSetFetcher {
  import opened Wrappers
  import opened ExternalDns
  import opened DomainsApi
  import opened Pagination
  import opened Helper

  /** The paginated listing of the record sets of zone `zoneId` for `options`. */
  function ListRRSets(api: Api, zoneId: string, options: Query, fuel: nat): Fetched<RRSet>
    requires Bounded(api, fuel)
  {
    assert RRSetsEnd(api, zoneId, FirstPage(options), fuel);
    Paginate(api.listRRSets(zoneId), RRSetsResource(zoneId), FirstPage(options), fuel)
  }

  /** Every request of a record-set listing goes to zone `zoneId`; the first asks
      for offset 0 with limit 1000; each carries the caller's options, except
      that `limit` is 1000 and `offset` is the paging offset, and nothing else. */
  lemma ListRRSetsRequests(api: Api, zoneId: string, options: Query, fuel: nat)
    requires Bounded(api, fuel)
    ensures var calls := ListRRSets(api, zoneId, options, fuel).calls;
      && |calls| >= 1
      && calls[0] == List(RRSetsResource(zoneId), FirstPage(options))
      && forall c :: c in calls ==>
           && c.List? && c.resource == RRSetsResource(zoneId)
           && c.query.Keys == options.Keys + {"limit", "offset"}
           && c.query["limit"] == "1000"
           && forall k :: k in options && k != "limit" && k != "offset" ==> c.query[k] == options[k]
  {
    var q := FirstPage(options);
    assert q.Keys == options.Keys + {"limit", "offset"};
    assert RRSetsEnd(api, zoneId, q, fuel);
    PaginateKeepsOptions(api.listRRSets(zoneId), RRSetsResource(zoneId), q, fuel);
    var calls := ListRRSets(api, zoneId, options, fuel).calls;
    forall c | c in calls
      ensures c.List? && c.resource == RRSetsResource(zoneId)
      ensures c.query.Keys == options.Keys + {"limit", "offset"} && c.query["limit"] == "1000"
      ensures forall k :: k in options && k != "limit" && k != "offset" ==> c.query[k] == options[k]
    {
      var i :| 0 <= i < |calls| && calls[i] == c;
    }
  }

  /** fetchRecords: pages through the record sets of zone `zoneId` from offset 0
      with limit 1000. */
  method FetchRecords(client: Client, zoneId: string, options: Query) returns (r: Result<seq<RRSet>, Error>)
    requires client.Valid()
    modifies client
    ensures var f := ListRRSets(client.api, zoneId, options, client.bound);
      r == f.result && client.log == old(client.log) + f.calls
  {
    var opts := options["limit" := PageLimit]["offset" := "0"];
    var rrSets: seq<RRSet> := [];
    ghost var list := client.api.listRRSets(zoneId);
    ghost var spec := ListRRSets(client.api, zoneId, options, client.bound);
    ghost var fuel: nat := client.bound;
    ghost var sent: seq<Call> := [];
    assert RRSetsEnd(client.api, zoneId, opts, fuel);
    ThenNothing(spec);
    while true
      invariant EndsWithin(list, opts, fuel)
      invariant spec == Then(sent, rrSets, Paginate(list, RRSetsResource(zoneId), opts, fuel))
      invariant client.log == old(client.log) + sent
      decreases fuel
    {
      var rrSetsResponse := client.ListRRSets(zoneId, opts);
      if rrSetsResponse.Err? {
        PaginateLast(list, RRSetsResource(zoneId), opts, fuel, sent, rrSets);
        return Err(rrSetsResponse.error);
      }
      var next := rrSetsResponse.value.nextOffset;
      if next == 0 {
        PaginateLast(list, RRSetsResource(zoneId), opts, fuel, sent, rrSets);
      } else {
        PaginateStep(list, RRSetsResource(zoneId), opts, fuel, sent, rrSets);
      }
      sent := sent + [List(RRSetsResource(zoneId), opts)];
      rrSets := rrSets + rrSetsResponse.value.items;
      opts := AtOffset(opts, next);
      if next == 0 {
        break;
      }
      fuel := fuel - 1;
    }
    return Ok(rrSets);
  }

  const NoZoneError: Error := Error("record set name contains no zone dns name")
  const NotFoundError: Error := Error("record not found on record sets")

  /** The requests a resolution sent and the zone and record set it found. */
  datatype Resolved = Resolved(calls: seq<Call>, result: Result<(Zone, RRSet), Error>)

  /** getRRSetForUpdateDeletion: the best-matching zone for the change's name, then
      the record sets of that zone narrowed to `name=<change name>`, then the
      first of them with the change's exact name and type. */
  function Resolve(api: Api, change: EndpointData, zones: seq<Zone>, fuel: nat): Resolved
    requires Bounded(api, fuel)
  {
    match BestZone(change.dnsName, zones)
    case None => Resolved([], Err(NoZoneError))
    case Some(zone) =>
      var f := ListRRSets(api, zone.id, map["name" := change.dnsName], fuel);
      if f.result.Err? then Resolved(f.calls, Err(f.result.error))
      else
        match FirstRRSet(change.dnsName, change.recordType, f.result.value)
        case None => Resolved(f.calls, Err(NotFoundError))
        case Some(rrSet) => Resolved(f.calls, Ok((zone, rrSet)))
  }

  /** No zone for the name: the "contains no zone" error and no request at all.
      Otherwise every request lists the record sets of the best-matching zone,
      named after the change, 1000 at a time. */
  lemma ResolveRequests(api: Api, change: EndpointData, zones: seq<Zone>, fuel: nat)
    requires Bounded(api, fuel)
    ensures var res := Resolve(api, change, zones, fuel);
      && (BestZone(change.dnsName, zones).None? ==> res.calls == [] && res.result == Err(NoZoneError))
      && (BestZone(change.dnsName, zones).Some? ==>
            && |res.calls| >= 1
            && forall c :: c in res.calls ==>
                 && c.List? && c.resource == RRSetsResource(BestZone(change.dnsName, zones).value.id)
                 && c.query.Keys == {"name", "limit", "offset"}
                 && c.query["name"] == change.dnsName && c.query["limit"] == "1000")
  {
    match BestZone(change.dnsName, zones)
    case None =>
    case Some(zone) =>
      var options := map["name" := change.dnsName];
      ListRRSetsRequests(api, zone.id, options, fuel);
      assert options.Keys + {"limit", "offset"} == {"name", "limit", "offset"};
  }

  /** A successful resolution returns the best-matching zone and a listed record
      set whose name and type are exactly the change's. */
  lemma ResolveSuccess(api: Api, change: EndpointData, zones: seq<Zone>, fuel: nat)
    requires Bounded(api, fuel)
    requires Resolve(api, change, zones, fuel).result.Ok?
    ensures var (zone, rrSet) := Resolve(api, change, zones, fuel).result.value;
      && BestZone(change.dnsName, zones) == Some(zone)
      && rrSet in ListRRSets(api, zone.id, map["name" := change.dnsName], fuel).result.value
      && rrSet.name == change.dnsName && rrSet.recordType == change.recordType
  {
    var zone := BestZone(change.dnsName, zones).value;
    var f := ListRRSets(api, zone.id, map["name" := change.dnsName], fuel);
    FirstRRSetFinds(change.dnsName, change.recordType, f.result.value);
  }

  /** A listing that succeeds but holds no record set with the change's name and
      type ends in the "record not found" error. */
  lemma ResolveNotFound(api: Api, change: EndpointData, zones: seq<Zone>, fuel: nat)
    requires Bounded(api, fuel) && BestZone(change.dnsName, zones).Some?
    requires var f := ListRRSets(api, BestZone(change.dnsName, zones).value.id, map["name" := change.dnsName], fuel);
      && f.result.Ok?
      && forall rrSet :: rrSet in f.result.value ==> !Matches(rrSet, change.dnsName, change.recordType)
    ensures Resolve(api, change, zones, fuel).result == Err(NotFoundError)
  {
    var zone := BestZone(change.dnsName, zones).value;
    var f := ListRRSets(api, zone.id, map["name" := change.dnsName], fuel);
    FirstRRSetFinds(change.dnsName, change.recordType, f.result.value);
  }

  /** getRRSetForUpdateDeletion, on the client. */
  method GetRRSetForUpdateDeletion(client: Client, change: Endpoint, zones: seq<Zone>)
    returns (r: Result<(Zone, RRSet), Error>)
    requires client.Valid()
    modifies client
    ensures var res := Resolve(client.api, change.Data(), zones, client.bound);
      r == res.result && client.log == old(client.log) + res.calls
  {
    var resultZone := FindBestMatchingZone(change.dnsName, zones);
    if resultZone.None? {
      return Err(NoZoneError);
    }
    var domainRRSets := FetchRecords(client, resultZone.value.id, map["name" := change.dnsName]);
    if domainRRSets.Err? {
      return Err(domainRRSets.error);
    }
    var resultRRSet := FindRRSet(change.dnsName, change.recordType, domainRRSets.value);
    if resultRRSet.None? {
      return Err(NotFoundError);
    }
    return Ok((resultZone.value, resultRRSet.value));
  }
}
