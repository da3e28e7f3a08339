# Selectel DNS webhook provider — a verified model of its reconciliation core

This project models the reconciliation logic of the external-dns webhook for the
Selectel DNS API (`internal/selprovider`). That logic does two things:

- It turns external-dns's change plan into record-set requests against a
  zone/record-set REST API. The plan lists endpoints to create, to update and to
  delete.
- It lists every zone's record sets and turns them back into external-dns
  endpoints.

The API is an abstract client. Its server is a fixed set of response functions
(`DomainsApi.Api`), and the client appends every request it sends to a log. Each
imperative operation of the provider is a method. It is proved against a pure
function that says which requests are sent, in which order, and what is
returned. The properties of the provider are then proved as lemmas about those
functions.

The modules follow the Go files:

- `Helper` (helper.go):
  - zone matching by longest contained name;
  - exact record-set lookup;
  - endpoint normalisation (`modifyChange`);
  - the wire form of an endpoint;
  - the log fields of a change.
- `Pagination`: the offset-pagination loop shared by `fetchZones` and `fetchRecords`.
- `ZoneFetcher` (zone_fetcher.go): one zone listing, or one listing per domain filter.
- `RRSetFetcher` (rrset_fetcher.go): the record-set listing of a zone, and
  `getRRSetForUpdateDeletion`.
- `Records` (records.go): the listing fan-out and `collectEndPoints`.
- `ApplyChanges` (apply_changes.go): the three phases, the worker pool and the
  three per-action handlers.
- Modules for the environment:
  - `DomainsApi`: wire types, the abstract client and the pagination bound;
  - `ExternalDns`: the endpoint, and concrete definitions of the library helpers the
    provider calls (`EnsureTrailingDot`, `strings.TrimSuffix` of a dot, `NewEndpointWithTTL`);
  - `Wrappers`: `Option`/`Result`.

The endpoint is a class, because the handlers rewrite it in place through
`modifyChange`. A plan may list the same endpoint object more than once, in one
list or in several. The model does not forbid this:

- `ApplyChanges.HandleAgain` shows that handling an endpoint again, as the
  handler left it, repeats the first handling exactly.
- `ApplyChanges.PhaseNormalized` shows that an update or delete phase behaves the
  same over endpoints that an earlier phase normalised.

The worker pools are sequential loops over the tasks, in queue order. Every task
is handled, and the drain returns the first non-nil error. This is what the Go
code does with one worker, and the error channel is buffered for every task.

The model follows these details of the code:

- `createRRSet` matches the zone on the endpoint's name as it stands, before
  normalising.
- A dry-run create returns before `modifyChange`, so the endpoint stays
  unnormalised.
- Update and delete normalise first, then resolve.
- When two contained zones have the same, longest, name length, the first in
  list order wins. The comparison is a strict `>`.
- Listed endpoints lose the trailing dot of the record-set name, and each target
  loses one trailing dot. This is what `NewEndpointWithTTL` does, and what the
  listing test expects (`test.com`).

## Model

| member | source | states |
|---|---|---|
| Helper.ByteLen | internal/selprovider/helper.go:19-20 | Go's `len`: the UTF-8 byte length, between the number of characters and four times that number. |
| Helper.ByteLenAscii | internal/selprovider/helper.go:19-20 | The byte length equals the character count exactly when the string is ASCII. |
| Helper.Scan | internal/selprovider/helper.go:16-23 | The scan's state after any prefix of the zones. The count is the byte length of a contained zone's name and bounds the byte length of every contained name. No zone is taken while the count is 0. An earlier contained zone is strictly shorter in bytes than the taken one. |
| Helper.BestZoneIsFirstLongest | internal/selprovider/helper.go:15-30 | Not found exactly when no zone with a non-empty name is contained in the dot-terminated name. When found, the zone is contained and its name is longest in bytes among the contained names. Among names of that byte length it is the first in list order. |
| Helper.FindBestMatchingZone | internal/selprovider/helper.go:15-30 | The loop returns the zone the function `BestZone` selects. |
| Helper.BestZoneMatches | internal/selprovider/helper_test.go:158-171 | `www.foo.com` matched against foo.com, bar.com and baz.com gives foo.com. |
| Helper.BestZoneMisses | internal/selprovider/helper_test.go:158-171 | `www.test.com` matches none of them. |
| Helper.BestZoneCountsBytes | internal/selprovider/helper.go:19-21 | Of two contained zone names of six characters each, `ab.de.` (six bytes) and `aü.de.` (seven bytes), the second wins, as `len` counts bytes. |
| Helper.ContainsAt | internal/selprovider/helper.go:19 | `strings.Contains` holds when the substring occurs at some index. |
| Helper.FirstCharMissing | internal/selprovider/helper.go:19 | `strings.Contains` fails when the substring's first character does not occur in the string. |
| Helper.ContainsShorter | internal/selprovider/helper.go:19 | A contained string is no longer than the string that contains it. |
| Helper.MatchIndex | internal/selprovider/helper.go:33-40 | The index returned is the first whose name and type both match, or the end of the list when none matches. |
| Helper.FirstRRSetFinds | internal/selprovider/helper.go:33-40 | Not found exactly when no record set has the name and type. When found, the record set is in the list and has them. |
| Helper.FindRRSet | internal/selprovider/helper.go:33-40 | The loop with early return yields the first exact match, or not found. |
| Helper.FindRRSetExamples | internal/selprovider/helper_test.go:186-217 | Among `www.foo.com`, `www.bar.com` and `www.baz.com` (all A), `www.foo.com`/A finds the first and `www.test.com`/A finds nothing. |
| Helper.MatchIndexIsFirst | internal/selprovider/helper.go:34-37 | An index before which nothing matches, and at which the list matches or ends, is the first-match index. |
| Helper.DotTargets | internal/selprovider/helper.go:54-56 | Every target gets a trailing dot ensured, and the targets keep their number and order. |
| Helper.NormalizeEffect | internal/selprovider/helper.go:44-58 | After `modifyChange` the name ends with a dot and has gained at most that dot. TTL 0 becomes 300 and any other TTL stays. The type stays. CNAME, ALIAS, MX and SRV targets each end with a dot, gaining at most one. Other types' targets are unchanged. |
| Helper.NormalizeIdempotent | internal/selprovider/helper.go:44-58 | `modifyChange` applied twice equals `modifyChange` applied once. |
| Helper.NormalizeExamples | internal/selprovider/helper_test.go:14-122 | Each case of the normalisation test: the name gains its dot, a missing TTL becomes 300, and CNAME, ALIAS, MX and SRV targets gain their dot while A targets stay. |
| Helper.ModifyChange | internal/selprovider/helper.go:44-58 | The in-place rewrite of the endpoint, including the loop over its targets, leaves exactly the normalised endpoint. |
| Helper.ToWire | internal/selprovider/helper.go:61-75 | One record per target, with `records[i].content == targets[i]`. Name, TTL and type are copied unchanged. |
| Helper.ToWireExample | internal/selprovider/helper_test.go:124-153 | An A record `test.` with TTL 300 and targets 192.0.2.1 and 192.0.2.2 becomes exactly the expected record set, one record per target, in order. |
| Helper.GetRRSetRecord | internal/selprovider/helper.go:61-75 | The loop that fills the preallocated record array builds exactly that wire record set. |
| Helper.LogFields | internal/selprovider/helper.go:78-86 | The five logged pairs, in order: record name, targets joined by commas, type, action and id. |
| Helper.Join | internal/selprovider/helper.go:81 | `strings.Join`: no parts give the empty string, one part is itself, and the first part is a prefix of the result. |
| Helper.JoinAppend | internal/selprovider/helper.go:81 | Joining one more part appends the separator and that part. |
| Helper.JoinLength | internal/selprovider/helper.go:81 | The joined length is the parts' total length plus one separator between each two parts. |
| Helper.LogFieldsExample | internal/selprovider/helper_test.go:219-238 | An A record `test.` with targets 192.0.2.1 and 192.0.2.2, created in zone 123, logs exactly the five expected pairs, with content `192.0.2.1,192.0.2.2`. |
| ExternalDns.EnsureTrailingDot | internal/selprovider/helper.go:45 | For a host name, the result ends with a dot and is the input or the input plus one dot. An input that already ends with a dot is unchanged. |
| ExternalDns.NewEndpointWithTTL | internal/selprovider/records.go:99-104 | The listed endpoint keeps type and TTL. Its name plus a dot is the record-set name with its dot ensured. It has one target, which plus a dot is the record content with its dot ensured; content without a trailing dot is kept as it is. |
| Pagination.FirstPage | internal/selprovider/zone_fetcher.go:55-56 | The first request has limit 1000 and offset 0, and keeps every other caller option. |
| Pagination.PaginateFollowsOffsets | internal/selprovider/zone_fetcher.go:60-72 | Pagination sends between 1 and fuel list requests. Each request after the first asks for the previous page's next offset. The last answer is an error or a page with next offset 0. |
| Pagination.PaginateResult | internal/selprovider/zone_fetcher.go:60-74 | The fetch fails exactly when the last answer is an error, and then with that error and no partial list. Otherwise it returns the items of all pages, concatenated in page order. |
| Pagination.PaginateKeepsOptions | internal/selprovider/rrset_fetcher.go:35-48 | Every request keeps the first request's options and differs at most in `offset`. |
| Pagination.SinglePage | internal/selprovider/zone_fetcher.go:69-71 | A first page whose next offset is 0 ends the fetch after that one request, with that page's items. |
| Pagination.PaginateStep | internal/selprovider/zone_fetcher.go:66-68 | A page with a non-zero next offset contributes its request and its items, and is followed by the fetch at the next offset. |
| Pagination.PaginateLast | internal/selprovider/zone_fetcher.go:61-71 | A final page, or an error, ends the fetch with that page's items or that error. |
| Pagination.ChainCons | internal/selprovider/zone_fetcher.go:68 | Prepending a request whose next offset starts the rest keeps the offset chain. |
| Pagination.ThenThen | internal/selprovider/zone_fetcher.go:66 | Appending requests and items in two steps is the same as appending them at once. |
| Pagination.ThenNothing | internal/selprovider/zone_fetcher.go:66 | Appending nothing changes nothing. |
| Pagination.ConcatOkIff | internal/selprovider/zone_fetcher.go:36-46 | Fetches run one after another succeed exactly when every one of them succeeds. |
| Pagination.ConcatFirstFailure | internal/selprovider/zone_fetcher.go:40-42 | The first failing fetch gives the error, and its requests are the last ones sent. |
| Pagination.ConcatStops | internal/selprovider/zone_fetcher.go:40-42 | After a failure no later fetch is started. |
| Pagination.ConcatNext | internal/selprovider/zone_fetcher.go:36-44 | One more fetch either appends its requests and items, or ends the run with its error. |
| Pagination.ConcatAppend | internal/selprovider/zone_fetcher.go:36-46 | Running fetches `a + b` is running `a`, then, unless it failed, running `b`. |
| Pagination.ConcatCalls | internal/selprovider/zone_fetcher.go:36-46 | Every request sent belongs to one of the fetches. |
| ZoneFetcher.FilterListings | internal/selprovider/zone_fetcher.go:36-39 | One listing per filter. |
| ZoneFetcher.FilterListingsAt | internal/selprovider/zone_fetcher.go:36-39 | The listing for filter `i` is the paginated zone listing with `filter=<filters[i]>`. |
| ZoneFetcher.FilterListingAt | internal/selprovider/zone_fetcher.go:36-39 | The same, for one given index. |
| ZoneFetcher.FilterListingsPrefix | internal/selprovider/zone_fetcher.go:36-44 | The listings of a prefix of the filters are the prefix of the listings. |
| ZoneFetcher.FilterListingsAppend | internal/selprovider/zone_fetcher.go:36-44 | The listings of `a + b` are those of `a` followed by those of `b`. |
| ZoneFetcher.PerFilterAppend | internal/selprovider/zone_fetcher.go:36-46 | Filters `a + b` give the zones of `a`, then, unless `a` failed, those of `b`. |
| ZoneFetcher.PerFilterOkIff | internal/selprovider/zone_fetcher.go:36-46 | With filters, the zone fetch succeeds exactly when every filter's listing succeeds. |
| ZoneFetcher.PerFilterFirstFailure | internal/selprovider/zone_fetcher.go:40-42 | The first failing filter's error aborts the whole call. The requests are those of the earlier filters, then those of the failing one. |
| ZoneFetcher.FilterRequests | internal/selprovider/zone_fetcher.go:37-39 | Every request for one filter lists zones and carries exactly `filter`, `limit=1000` and `offset`. |
| ZoneFetcher.PerFilterRequests | internal/selprovider/zone_fetcher.go:36-46 | Every request lists zones with one of the filters, `limit=1000` and an offset, and nothing else. |
| ZoneFetcher.NoDeduplication | internal/selprovider/zone_fetcher.go:43 | A filter given twice is fetched twice, and its zones appear twice. |
| ZoneFetcher.NoFilterRequests | internal/selprovider/zone_fetcher.go:25-31 | Without filters there is one paginated listing. It starts with exactly `limit=1000` and `offset=0`, and no request carries a `filter` key. |
| ZoneFetcher.FetchZones | internal/selprovider/zone_fetcher.go:50-75 | The pagination loop, which rewrites `options["offset"]` and appends each page, sends exactly the requests of the paginated listing and returns its result. |
| ZoneFetcher.Zones | internal/selprovider/zone_fetcher.go:24-47 | `zones` sends and returns what `ZonesSpec` defines, with and without filters. |
| ZoneFetcher.ZonesPerFilter | internal/selprovider/zone_fetcher.go:34-46 | The loop over the filters appends each listing, and returns at the first error. |
| ZoneFetcher.FetchFilterZones | internal/selprovider/zone_fetcher.go:37-39 | One filter's fetch carries `filter=<f>`. |
| RRSetFetcher.ListRRSetsRequests | internal/selprovider/rrset_fetcher.go:35-48 | Every request lists the given zone's record sets. The first asks for offset 0 with limit 1000. Each keeps the caller's options and adds only `limit` and `offset`. |
| RRSetFetcher.FetchRecords | internal/selprovider/rrset_fetcher.go:29-55 | The pagination loop sends exactly the requests of the paginated listing and returns its result, with no partial list on error. |
| RRSetFetcher.ResolveRequests | internal/selprovider/rrset_fetcher.go:58-79 | With no matching zone, no request is sent and the result is "record set name contains no zone dns name". Otherwise every request lists the best zone's record sets with exactly `name=<DNSName>`, `limit=1000` and `offset`. |
| RRSetFetcher.ResolveSuccess | internal/selprovider/rrset_fetcher.go:64-88 | On success the zone is the best-matching zone. The record set is among those listed, and its name and type are the change's. |
| RRSetFetcher.ResolveNotFound | internal/selprovider/rrset_fetcher.go:81-86 | When no listed record set has the change's name and type, the result is "record not found on record sets". |
| RRSetFetcher.GetRRSetForUpdateDeletion | internal/selprovider/rrset_fetcher.go:58-89 | Sends and returns what the resolution specifies. |
| Records.ItemEndpoints | internal/selprovider/records.go:96-105 | One endpoint per record item, in item order, each built by `NewEndpointWithTTL` from the record set's name, type and TTL and the item's content. |
| Records.EndpointsOfAppend | internal/selprovider/records.go:94-108 | The endpoints of `a + b` are those of `a` followed by those of `b`. |
| Records.EndpointsOfCount | internal/selprovider/records.go:93-110 | The number of endpoints is the number of record items over the supported record sets. |
| Records.EndpointsOfOrigin | internal/selprovider/records.go:93-110 | Every endpoint comes from a record item of a supported record set: the set's name, type and TTL, and the item's content as its one target, each up to a trailing dot. |
| Records.UnsupportedDropped | internal/selprovider/records.go:95 | An unsupported record set contributes nothing. |
| Records.CollectEndPoints | internal/selprovider/records.go:90-111 | The nested loop yields exactly the flat map of supported record sets to their items. |
| Records.ProcessZoneRRSets | internal/selprovider/records.go:65-87 | One zone's listing, turned into endpoints, or the listing's error with no endpoints. |
| Records.ZoneResults | internal/selprovider/records.go:31-33 | One outcome per zone. |
| Records.ZoneResultsAll | internal/selprovider/records.go:31-33 | Outcome `k` is zone `k`'s record sets turned into endpoints. |
| Records.ZoneResultsAt | internal/selprovider/records.go:31-33 | The same, for one given zone. |
| Records.GatherNext | internal/selprovider/records.go:35-43 | One more zone's outcome appends its requests and combines its result. |
| Records.GatherHasCalls | internal/selprovider/records.go:31-33 | Every zone's requests are sent, whatever happened to the others. |
| Records.GatherFailsIff | internal/selprovider/records.go:35-43 | The listing fails exactly when some zone fails, and then with the first failing zone's error. |
| Records.GatherOkFrom | internal/selprovider/records.go:35-43 | On success every endpoint comes from some zone's outcome. |
| Records.DrainStops | internal/selprovider/records.go:37-41 | After the first error the drain looks at nothing more. |
| Records.DrainNext | internal/selprovider/records.go:35-43 | Draining one more outcome appends its endpoints, or ends with its error. |
| Records.ZoneRecordsListsEveryZone | internal/selprovider/records.go:31-33 | Every zone's record sets are requested, starting at offset 0 with limit 1000. |
| Records.ZoneRecordsFailsIff | internal/selprovider/records.go:35-41 | The listing fails exactly when some zone's record-set fetch fails, and with the first such zone's error. No partial result is returned. |
| Records.ZoneRecordsOrigin | internal/selprovider/records.go:31-47 | Every listed endpoint comes from a record item of a supported record set of one of the zones. |
| Records.RecordsTokenFailure | internal/selprovider/records.go:13-16 | A token error is returned before any request. |
| Records.RecordsZonesFailure | internal/selprovider/records.go:18-21 | A zone-list error is returned, and only zone listings were sent. |
| Records.ProcessZones | internal/selprovider/records.go:27-33 | The worker pass over the zones, followed by the drain, gives the listing's requests and result. |
| Records.ProcessZoneAt | internal/selprovider/records.go:57-59 | One zone taken from the queue extends the gathered outcome by that zone's. |
| Records.DrainOutcomes | internal/selprovider/records.go:35-43 | The drain loop returns the first error, or every endpoint list concatenated in queue order. |
| Records.Records | internal/selprovider/records.go:12-48 | `Records` sends and returns what `RecordsSpec` defines: the token, the zones, then every zone. |
| Records.RecordsOfZones | internal/selprovider/records.go:18-47 | Once there is a client, the zones are listed and then every zone's record sets. |
| Records.RecordsOfZoneList | internal/selprovider/records.go:23-47 | The worker pass and the drain over a given zone list. |
| Records.TestApiBounded | internal/selprovider/records_test.go:184-249 | Every listing of the test server ends on its first page. |
| Records.TestZoneEndpoints | internal/selprovider/records_test.go:212-249 | Zones 1234 and 5678 each list as one endpoint whose name has lost the trailing dot and whose target is the record's content. |
| Records.GatherTwo | internal/selprovider/records.go:35-43 | Two successful zone outcomes drain to their endpoints, in queue order. |
| Records.RecordsExample | internal/selprovider/records_test.go:19-39 | Against the test server, with no filter and one worker, `Records` returns exactly `test.com` A 1.2.3.4 TTL 300 and `test2.com` A 5.6.7.8 TTL 300, in that order. |
| ApplyChanges.CreateNoZone | internal/selprovider/apply_changes.go:128-131 | A create whose name contains no zone fails with "no matching zone found for <name>". It sends nothing and leaves the endpoint unchanged. |
| ApplyChanges.CreateLive | internal/selprovider/apply_changes.go:142-152 | A live create sends exactly one request: the wire form of the normalised endpoint, to the best-matching zone. The client's error is returned as it is, and the endpoint ends normalised. |
| ApplyChanges.HandleCalls | internal/selprovider/apply_changes.go:136-140 | A handler sends only record-set listings and mutations of its own action, and no mutation in a dry run. A dry-run create sends nothing and leaves the endpoint unnormalised. |
| ApplyChanges.ResolvedHandling | internal/selprovider/apply_changes.go:166-180 | Update and delete normalise first and resolve the normalised endpoint. A resolution error is returned, and nothing is patched or deleted. A dry run stops after a successful resolution. |
| ApplyChanges.UpdateLive | internal/selprovider/apply_changes.go:182-189 | A live update sends the wire form of the normalised endpoint to the resolved zone and record set, after the lookup. The record set has the endpoint's name and type, and the client's error is returned as it is. |
| ApplyChanges.DeleteLive | internal/selprovider/apply_changes.go:219-224 | A live delete sends only the resolved zone and record-set ids, after the lookup. The client's error is returned as it is. |
| ApplyChanges.UpdateNotFound | internal/selprovider/apply_changes.go:168-171 | An update whose name and type are not listed fails with "record not found on record sets" and sends no update. |
| ApplyChanges.BestZoneNormalized | internal/selprovider/helper.go:19 | Zone matching ignores a missing trailing dot. |
| ApplyChanges.HandleAgain | internal/selprovider/apply_changes.go:239-250 | Handling an endpoint again, as its handler left it, gives the same requests, error and value. |
| ApplyChanges.HandleNormalized | internal/selprovider/apply_changes.go:166-168 | Update and delete of an already normalised endpoint behave as on the original. |
| ApplyChanges.Tasks | internal/selprovider/apply_changes.go:104-109 | One handling per endpoint. |
| ApplyChanges.TasksAll | internal/selprovider/apply_changes.go:104-109 | Handling `k` is the handler of endpoint `k`. |
| ApplyChanges.CollectStart | internal/selprovider/apply_changes.go:111 | Before any handling nothing is sent and nothing is drained. |
| ApplyChanges.CollectNext | internal/selprovider/apply_changes.go:111-116 | One more handling appends its requests and keeps the first error. |
| ApplyChanges.CollectFailsIff | internal/selprovider/apply_changes.go:111-118 | The result is nil exactly when every handling returns nil. Otherwise it is the first handling's error in queue order. |
| ApplyChanges.CollectCalls | internal/selprovider/apply_changes.go:104-116 | No handling is lost: the requests sent are exactly those of the handlings. |
| ApplyChanges.WorkersAfter | internal/selprovider/apply_changes.go:91-109 | One value per endpoint after the worker pool. |
| ApplyChanges.EmptyPhase | internal/selprovider/apply_changes.go:47-49 | An empty phase sends nothing and succeeds. |
| ApplyChanges.ZonesCalls | internal/selprovider/apply_changes.go:91 | The zone fetch only lists zones. |
| ApplyChanges.PhaseCalls | internal/selprovider/apply_changes.go:91-109 | A non-empty phase lists the zones once, first. After that it sends only record-set listings and mutations of its own action. A zone-fetch error is returned before any endpoint is handled. |
| ApplyChanges.PhaseCallKinds | internal/selprovider/apply_changes.go:42-82 | Every request of a phase is a listing or a mutation of its action, and only listings in a dry run. |
| ApplyChanges.PhaseFailsIff | internal/selprovider/apply_changes.go:104-118 | Once the zones are listed, the phase fails exactly when some endpoint's handling fails, and with the first such error in list order. Every endpoint's requests are sent, even after an earlier endpoint has failed. |
| ApplyChanges.WorkersAfterNormalizes | internal/selprovider/apply_changes.go:132-207 | After a phase every endpoint is as it was, or normalised. |
| ApplyChanges.NormalizedFromTrans | internal/selprovider/helper.go:44-58 | "As it was, or normalised" composes over phases, because normalising is idempotent. |
| ApplyChanges.AllNormalizedFromTrans | internal/selprovider/helper.go:44-58 | The same, for whole endpoint lists. |
| ApplyChanges.PhaseNormalized | internal/selprovider/apply_changes.go:160-229 | An update or delete phase over endpoints that an earlier phase may have normalised behaves as over the original endpoints. |
| ApplyChanges.OrderedConcat | internal/selprovider/apply_changes.go:21-33 | Create-only, then update-only, then delete-only requests are in phase order. |
| ApplyChanges.SequenceAfter | internal/selprovider/apply_changes.go:21-38 | A failing create phase is the whole run. After a successful one, the run is its requests followed by the update and delete phases on their own. |
| ApplyChanges.ApplyOrder | internal/selprovider/apply_changes.go:21-38 | Every creation is sent before every update, and every update before every deletion. A failed create phase means no update or deletion is sent, and a failed update phase means no deletion. |
| ApplyChanges.DryRunSendsNoMutation | internal/selprovider/apply_changes.go:132-218 | A dry run sends only listings. |
| ApplyChanges.ApplyOkIff | internal/selprovider/apply_changes.go:14-38 | The plan succeeds exactly when it has a token and all three phases succeed, and then its requests are the three phases' requests in order. Without a token nothing is sent. |
| ApplyChanges.DrainedStops | internal/selprovider/apply_changes.go:111-116 | The drain returns at the first non-nil error. |
| ApplyChanges.DrainErrors | internal/selprovider/apply_changes.go:111-118 | The drain loop returns the first non-nil error, else nil. |
| ApplyChanges.CreateRRSet | internal/selprovider/apply_changes.go:122-157 | `createRRSet`'s requests, error and the endpoint's new value are those of `CreateSpec`. |
| ApplyChanges.UpdateRRSet | internal/selprovider/apply_changes.go:160-194 | `updateRRSet`'s requests, error and the endpoint's new value are those of `UpdateSpec`. |
| ApplyChanges.DeleteRRSet | internal/selprovider/apply_changes.go:197-229 | `deleteRRSet`'s requests, error and the endpoint's new value are those of `DeleteSpec`. |
| ApplyChanges.HandleChange | internal/selprovider/apply_changes.go:239-250 | A worker's task runs the handler of its action. |
| ApplyChanges.ProcessTasks | internal/selprovider/apply_changes.go:100-109 | Every endpoint is handled in queue order, and every endpoint ends as its handling leaves it. The buffered errors drain to the collected error. |
| ApplyChanges.HandleTaskAt | internal/selprovider/apply_changes.go:239-250 | One task taken from the queue extends the collected outcome by its handling. |
| ApplyChanges.HandleRRSetWithWorkers | internal/selprovider/apply_changes.go:85-119 | The zones, then the workers, then the drain, as `WorkersSpec` defines. The endpoints end as their handlers leave them. |
| ApplyChanges.Phase | internal/selprovider/apply_changes.go:42-82 | An empty list is skipped, and a non-empty one goes to the workers. Every endpoint of the plan ends as it was or normalised. |
| ApplyChanges.KeptOrNormalized | internal/selprovider/apply_changes.go:104-109 | An endpoint shared by several lists keeps "as it was or normalised" in each of them. |
| ApplyChanges.ApplyChanges | internal/selprovider/apply_changes.go:14-38 | The token, then the create, update and delete phases, each run only if the ones before it succeeded. The endpoints end as they were or normalised. |
| ApplyChanges.ApplyPhases | internal/selprovider/apply_changes.go:21-38 | The three phases, once the client exists. |
| ApplyChanges.UpdateThenDelete | internal/selprovider/apply_changes.go:27-38 | The update phase and, unless it failed, the delete phase, over endpoints the create phase may have normalised. |

## Left out

- Goroutines, channels and the worker count. The pools in `handleRRSetWithWorkers`,
  `changeWorker`, `Records` and `fetchRecordsWorker` are sequential loops over the
  tasks in queue order, which is what the code does with one worker. With several
  workers, requests from different tasks interleave and errors arrive in completion
  order. Neither is modelled.
- Both `Records` and `ApplyChanges` require `workers >= 1`. With no worker, the Go code
  blocks forever on the drain once a non-empty list has its zones.
- In-flight work after `Records` or `handleRRSetWithWorkers` returns early. The model
  handles every zone, or every endpoint, before the drain, as the buffered channels
  let the workers do. The Go code returns as soon as it drains an error, while
  workers still run: in `handleRRSetWithWorkers` they go on sending requests for,
  and normalising, the endpoints still queued.
- HTTP, JSON decoding and status codes. The client is abstract: every answer is a
  page or an error.
- The server is a fixed function of the request. A record set created by one request
  does not appear in a later listing.
- Termination of pagination against an arbitrary server. Each client carries a ghost
  bound: every listing ends within that many pages. The model's listing functions take
  it as fuel.
- Obtaining the token (`getDomainsClient` in provider.go) is a `Result` parameter.
  Only "a token error aborts" is modelled. provider.go is not part of this model
  otherwise.
- `provider.SupportedRecordType` is a predicate parameter of the listing.
- EnsureTrailingDot: the library returns a string that parses as an IP address unchanged,
  while the model appends the dot to every string without one. Names, and the targets
  of CNAME, ALIAS, MX and SRV records, are taken to be host names.
- Scan: zone names are compared by the UTF-8 byte length of their characters, as Go's
  `len` does. A Go string holding bytes that are not valid UTF-8 is not modelled,
  because Dafny strings are sequences of Unicode characters.
- BestZoneIsFirstLongest: "longest" is in UTF-8 bytes, with the same limit as `Scan`.
- FindBestMatchingZone: compares UTF-8 byte lengths, with the same limit as `Scan`.
- `NewEndpointWithTTL`'s label-length check. The library returns no endpoint for a name
  with a label longer than 63 characters. The model always builds the endpoint.
- The external-dns library is not part of this model's sources. `EnsureTrailingDot` and
  `NewEndpointWithTTL` are concrete definitions for host names.
  `NewEndpointWithTTL` trims at most one trailing dot, from the name and from every
  target.
- Logging. `getLogFields` is modelled as the pure list of pairs it builds. The zap
  logger and every log call are out.
- The slice aliasing of `Targets`. A Go endpoint's target slice may share its backing
  array with other slices, while the model's targets are a value.
- `context.Context` and cancellation.

