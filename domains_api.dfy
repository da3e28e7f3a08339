/** The zone/record-set REST API the webhook talks to, seen from the webhook: its
    wire types, its offset-pagination convention and an abstract client. The
    server is a fixed set of response functions of the request; the client records
    every request it sends, in order, so that what the webhook asks for can be stated. */
module DomainsApi {
  import opened Wrappers

  datatype Zone = Zone(id: string, name: string)

  datatype RecordItem = RecordItem(content: string)

  datatype RRSet = RRSet(id: string, name: string, recordType: string, ttl: int, records: seq<RecordItem>)

  /** Every failure, from the transport or from the webhook itself, carries a message. */
  datatype Error = Error(message: string)

  /** Query options of a list request (`limit`, `offset`, `filter`, `name`, ...). */
  type Query = map<string, string>

  /** One page of a paginated listing; a next offset of 0 marks the last page. */
  datatype Page<T> = Page(items: seq<T>, nextOffset: int)

  datatype Resource = ZonesResource | RRSetsResource(zoneId: string)

  /** A request sent to the API. */
  datatype Call =
    | List(resource: Resource, query: Query)
    | Create(zoneId: string, rrSet: RRSet)
    | Update(zoneId: string, rrSetId: string, rrSet: RRSet)
    | Delete(zoneId: string, rrSetId: string)

  /** The server's answers. A mutation answers `None` on success. */
  datatype Api = Api(
    listZones: Query -> Result<Page<Zone>, Error>,
    listRRSets: string -> Query -> Result<Page<RRSet>, Error>,
    createRRSet: (string, RRSet) -> Option<Error>,
    updateRRSet: (string, string, RRSet) -> Option<Error>,
    deleteRRSet: (string, string) -> Option<Error>)

  /** `strconv.Itoa`: the decimal rendering of an offset. */
  function Itoa(n: int): string
  {
    if n < 0 then "-" + NatToString(-n) else NatToString(n)
  }

  function NatToString(n: nat): string
    decreases n
  {
    var digit := "0123456789"[n % 10];
    if n < 10 then [digit] else NatToString(n / 10) + [digit]
  }

  /** The request for the page that starts at `offset`. */
  function AtOffset(q: Query, offset: int): Query
  {
    q["offset" := Itoa(offset)]
  }

  /** Following the server's next offsets from request `q`, an error or a page with
      next offset 0 arrives within `fuel` requests. */
  predicate EndsWithin<T>(list: Query -> Result<Page<T>, Error>, q: Query, fuel: nat)
    decreases fuel
  {
    fuel > 0 &&
    match list(q)
    case Err(_) => true
    case Ok(page) => page.nextOffset == 0 || EndsWithin(list, AtOffset(q, page.nextOffset), fuel - 1)
  }

  /** The zone listing that starts with request `q` ends within `fuel` pages. */
  predicate ZonesEnd(api: Api, q: Query, fuel: nat)
  {
    EndsWithin(api.listZones, q, fuel)
  }

  /** The record-set listing of a zone that starts with request `q` ends within `fuel` pages. */
  predicate RRSetsEnd(api: Api, zoneId: string, q: Query, fuel: nat)
  {
    EndsWithin(api.listRRSets(zoneId), q, fuel)
  }

  /** Every zone listing and every record-set listing the server answers ends within `fuel` pages. */
  ghost predicate Bounded(api: Api, fuel: nat)
  {
    && (forall q :: ZonesEnd(api, q, fuel))
    && (forall zoneId, q :: RRSetsEnd(api, zoneId, q, fuel))
  }

  /** `domains.DNSClient`: each request is answered by the server's response
      function and appended to `log`. */
  class Client {
    const api: Api
    ghost const bound: nat
    var log: seq<Call>

    ghost predicate Valid()
    {
      Bounded(api, bound)
    }

    constructor (api: Api, ghost bound: nat)
      requires Bounded(api, bound)
      ensures Valid() && this.api == api && this.bound == bound && log == []
    {
      this.api := api;
      this.bound := bound;
      log := [];
    }

    method ListZones(q: Query) returns (r: Result<Page<Zone>, Error>)
      modifies this
      ensures r == api.listZones(q)
      ensures log == old(log) + [List(ZonesResource, q)]
    {
      r := api.listZones(q);
      log := log + [List(ZonesResource, q)];
    }

    method ListRRSets(zoneId: string, q: Query) returns (r: Result<Page<RRSet>, Error>)
      modifies this
      ensures r == api.listRRSets(zoneId)(q)
      ensures log == old(log) + [List(RRSetsResource(zoneId), q)]
    {
      r := api.listRRSets(zoneId)(q);
      log := log + [List(RRSetsResource(zoneId), q)];
    }

    method CreateRRSet(zoneId: string, rrSet: RRSet) returns (err: Option<Error>)
      modifies this
      ensures err == api.createRRSet(zoneId, rrSet)
      ensures log == old(log) + [Create(zoneId, rrSet)]
    {
      err := api.createRRSet(zoneId, rrSet);
      log := log + [Create(zoneId, rrSet)];
    }

    method UpdateRRSet(zoneId: string, rrSetId: string, rrSet: RRSet) returns (err: Option<Error>)
      modifies this
      ensures err == api.updateRRSet(zoneId, rrSetId, rrSet)
      ensures log == old(log) + [Update(zoneId, rrSetId, rrSet)]
    {
      err := api.updateRRSet(zoneId, rrSetId, rrSet);
      log := log + [Update(zoneId, rrSetId, rrSet)];
    }

    method DeleteRRSet(zoneId: string, rrSetId: string) returns (err: Option<Error>)
      modifies this
      ensures err == api.deleteRRSet(zoneId, rrSetId)
      ensures log == old(log) + [Delete(zoneId, rrSetId)]
    {
      err := api.deleteRRSet(zoneId, rrSetId);
      log := log + [Delete(zoneId, rrSetId)];
    }
  }
}
