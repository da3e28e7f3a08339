/** The change side of the provider (internal/selprovider/apply_changes.go): a
    plan's creations, updates and deletions, applied phase by phase. Each
    non-empty phase lists the zones once and then hands every endpoint to a
    worker; the worker pool is a sequential loop over the endpoints followed by
    the loop that drains the error channel. */
module ApplyChanges {
  import opened Wrappers
  import opened ExternalDns
  import opened DomainsApi
  import opened Pagination
  import opened Helper
  import opened ZoneFetcher
  import opened RRSetFetcher
  import opened Records

  /** The action of a change task (models.go: CREATE, UPDATE, DELETE). */
  datatype Action = CreateAction | UpdateAction | DeleteAction

  /** What handling one endpoint does: the requests it sends, the error it puts
      on the error channel (None for nil) and the endpoint's value afterwards. */
  datatype Handled = Handled(calls: seq<Call>, err: Option<Error>, after: EndpointData)

  /** The requests a phase or the whole plan sends, and the error it returns. */
  datatype Outcome = Outcome(calls: seq<Call>, err: Option<Error>)

  /** The error of a creation whose name matches no zone. */
  function NoMatchingZone(dnsName: string): Error
  {
    Error("no matching zone found for " + dnsName)
  }

  // ------------------------------------------------------------ the handlers

  /** createRRSet: the best zone for the name as it stands; in a dry run nothing
      more; otherwise the endpoint is normalised and its wire form created in
      that zone, the client's error returned as it is. */
  function CreateSpec(api: Api, dryRun: bool, change: EndpointData, zones: seq<Zone>): Handled
  {
    match BestZone(change.dnsName, zones)
    case None => Handled([], Some(NoMatchingZone(change.dnsName)), change)
    case Some(zone) =>
      if dryRun then Handled([], None, change)
      else
        var rrSet := ToWire(Normalize(change));
        Handled([Create(zone.id, rrSet)], api.createRRSet(zone.id, rrSet), Normalize(change))
  }

  /** updateRRSet: the endpoint is normalised first, then resolved to a zone and
      a record set; in a dry run nothing more; otherwise the record set is
      patched with the endpoint's wire form. */
  function UpdateSpec(api: Api, fuel: nat, dryRun: bool, change: EndpointData, zones: seq<Zone>): Handled
    requires Bounded(api, fuel)
  {
    var n := Normalize(change);
    var res := Resolve(api, n, zones, fuel);
    if res.result.Err? then Handled(res.calls, Some(res.result.error), n)
    else if dryRun then Handled(res.calls, None, n)
    else
      var (zone, found) := res.result.value;
      var rrSet := ToWire(n);
      Handled(res.calls + [Update(zone.id, found.id, rrSet)], api.updateRRSet(zone.id, found.id, rrSet), n)
  }

  /** deleteRRSet: as updateRRSet, but the resolved record set is deleted. */
  function DeleteSpec(api: Api, fuel: nat, dryRun: bool, change: EndpointData, zones: seq<Zone>): Handled
    requires Bounded(api, fuel)
  {
    var n := Normalize(change);
    var res := Resolve(api, n, zones, fuel);
    if res.result.Err? then Handled(res.calls, Some(res.result.error), n)
    else if dryRun then Handled(res.calls, None, n)
    else
      var (zone, found) := res.result.value;
      Handled(res.calls + [Delete(zone.id, found.id)], api.deleteRRSet(zone.id, found.id), n)
  }

  /** changeWorker: the handler of the task's action. */
  function HandleSpec(api: Api, fuel: nat, dryRun: bool, action: Action, change: EndpointData, zones: seq<Zone>): Handled
    requires Bounded(api, fuel)
  {
    match action
    case CreateAction => CreateSpec(api, dryRun, change, zones)
    case UpdateAction => UpdateSpec(api, fuel, dryRun, change, zones)
    case DeleteAction => DeleteSpec(api, fuel, dryRun, change, zones)
  }

  /** Create with no zone for the name: the "no matching zone found for <name>"
      error, no request, and the endpoint left as it was. */
  lemma CreateNoZone(api: Api, dryRun: bool, change: EndpointData, zones: seq<Zone>)
    requires forall j :: 0 <= j < |zones| && Contains(EnsureTrailingDot(change.dnsName), zones[j].name) ==> zones[j].name == ""
    ensures CreateSpec(api, dryRun, change, zones)
      == Handled([], Some(Error("no matching zone found for " + change.dnsName)), change)
  {
    BestZoneIsFirstLongest(change.dnsName, zones);
  }

  /** A live create with a zone for the name sends exactly one request: the wire
      form of the normalised endpoint, to the best-matching zone; the client's
      answer is the handler's error, and the endpoint ends normalised. */
  lemma CreateLive(api: Api, change: EndpointData, zones: seq<Zone>)
    requires BestZone(change.dnsName, zones).Some?
    ensures var zone := BestZone(change.dnsName, zones).value;
      var h := CreateSpec(api, false, change, zones);
      && h.calls == [Create(zone.id, ToWire(Normalize(change)))]
      && h.calls[0].rrSet.name == EnsureTrailingDot(change.dnsName)
      && |h.calls[0].rrSet.records| == |change.targets|
      && h.err == api.createRRSet(zone.id, ToWire(Normalize(change)))
      && h.after == Normalize(change)
  {
  }

  /** Every request of a handler lists record sets, or, outside a dry run, is the
      one mutation of the handler's action. */
  predicate TaskCall(dryRun: bool, action: Action, c: Call)
  {
    (c.List? && c.resource.RRSetsResource?) || (!dryRun && ActionCall(action, c))
  }

  /** `c` is a mutation of the kind `action` sends. */
  predicate ActionCall(action: Action, c: Call)
  {
    match action
    case CreateAction => c.Create?
    case UpdateAction => c.Update?
    case DeleteAction => c.Delete?
  }

  /** A handler sends only record-set listings and mutations of its own kind,
      and in a dry run no mutation at all; a dry-run create sends nothing and
      leaves the endpoint as it was. */
  lemma HandleCalls(api: Api, fuel: nat, dryRun: bool, action: Action, change: EndpointData, zones: seq<Zone>)
    requires Bounded(api, fuel)
    ensures var h := HandleSpec(api, fuel, dryRun, action, change, zones);
      forall c :: c in h.calls ==> TaskCall(dryRun, action, c)
    ensures dryRun && action == CreateAction ==>
      HandleSpec(api, fuel, dryRun, action, change, zones).calls == []
      && HandleSpec(api, fuel, dryRun, action, change, zones).after == change
  {
    if action != CreateAction {
      ResolveRequests(api, Normalize(change), zones, fuel);
    }
  }

  /** Update and delete normalise the endpoint before anything else: it ends
      normalised whatever happens, and the resolution runs on the normalised
      name. When the resolution fails its error is returned and nothing is
      patched or deleted; a dry run stops after a successful resolution. */
  lemma ResolvedHandling(api: Api, fuel: nat, dryRun: bool, action: Action, change: EndpointData, zones: seq<Zone>)
    requires Bounded(api, fuel) && action != CreateAction
    ensures var h := HandleSpec(api, fuel, dryRun, action, change, zones);
      var res := Resolve(api, Normalize(change), zones, fuel);
      && h.after == Normalize(change)
      && h.calls[..|res.calls|] == res.calls
      && (res.result.Err? ==> h.calls == res.calls && h.err == Some(res.result.error))
      && (res.result.Ok? && dryRun ==> h.calls == res.calls && h.err == None)
  {
  }

  /** A live update that resolves sends, after the lookup, the wire form of the
      normalised endpoint to the resolved zone and record set, whose name and
      type are the endpoint's; the client's answer is the handler's error. */
  lemma UpdateLive(api: Api, fuel: nat, change: EndpointData, zones: seq<Zone>)
    requires Bounded(api, fuel) && Resolve(api, Normalize(change), zones, fuel).result.Ok?
    ensures var res := Resolve(api, Normalize(change), zones, fuel);
      var (zone, found) := res.result.value;
      var h := UpdateSpec(api, fuel, false, change, zones);
      && BestZone(change.dnsName, zones) == Some(zone)
      && found.name == EnsureTrailingDot(change.dnsName) && found.recordType == change.recordType
      && h.calls == res.calls + [Update(zone.id, found.id, ToWire(Normalize(change)))]
      && h.err == api.updateRRSet(zone.id, found.id, ToWire(Normalize(change)))
  {
    ResolveSuccess(api, Normalize(change), zones, fuel);
    BestZoneNormalized(change.dnsName, zones);
  }

  /** A live delete that resolves sends, after the lookup, only the resolved zone
      and record set ids; the client's answer is the handler's error. */
  lemma DeleteLive(api: Api, fuel: nat, change: EndpointData, zones: seq<Zone>)
    requires Bounded(api, fuel) && Resolve(api, Normalize(change), zones, fuel).result.Ok?
    ensures var res := Resolve(api, Normalize(change), zones, fuel);
      var (zone, found) := res.result.value;
      var h := DeleteSpec(api, fuel, false, change, zones);
      && BestZone(change.dnsName, zones) == Some(zone)
      && found.name == EnsureTrailingDot(change.dnsName) && found.recordType == change.recordType
      && h.calls == res.calls + [Delete(zone.id, found.id)]
      && h.err == api.deleteRRSet(zone.id, found.id)
  {
    ResolveSuccess(api, Normalize(change), zones, fuel);
    BestZoneNormalized(change.dnsName, zones);
  }

  /** An update whose name and type are not among the listed record sets ends
      in "record not found on record sets" and patches nothing. */
  lemma UpdateNotFound(api: Api, fuel: nat, dryRun: bool, change: EndpointData, zones: seq<Zone>)
    requires Bounded(api, fuel)
    requires var n := Normalize(change);
      && BestZone(n.dnsName, zones).Some?
      && var f := ListRRSets(api, BestZone(n.dnsName, zones).value.id, map["name" := n.dnsName], fuel);
      && f.result.Ok?
      && forall rrSet :: rrSet in f.result.value ==> !Matches(rrSet, n.dnsName, n.recordType)
    ensures var h := UpdateSpec(api, fuel, dryRun, change, zones);
      && h.err == Some(NotFoundError)
      && forall c :: c in h.calls ==> !c.Update?
  {
    ResolveNotFound(api, Normalize(change), zones, fuel);
    ResolveRequests(api, Normalize(change), zones, fuel);
  }

  /** Zone matching ignores a missing trailing dot. */
  lemma BestZoneNormalized(dnsName: string, zones: seq<Zone>)
    ensures BestZone(EnsureTrailingDot(dnsName), zones) == BestZone(dnsName, zones)
  {
    assert EnsureTrailingDot(EnsureTrailingDot(dnsName)) == EnsureTrailingDot(dnsName);
  }

  /** Handling an endpoint a second time, as the handler left it, repeats the
      first handling exactly: the same requests, the same error, the same value.
      This is why one endpoint listed twice in a phase is handled alike both times. */
  lemma HandleAgain(api: Api, fuel: nat, dryRun: bool, action: Action, change: EndpointData, zones: seq<Zone>)
    requires Bounded(api, fuel)
    ensures var h := HandleSpec(api, fuel, dryRun, action, change, zones);
      HandleSpec(api, fuel, dryRun, action, h.after, zones) == h
  {
    NormalizeIdempotent(change);
    BestZoneNormalized(change.dnsName, zones);
  }

  /** Update and delete look only at the normalised endpoint, so an endpoint
      that an earlier phase normalised is handled as the original would be. */
  lemma HandleNormalized(api: Api, fuel: nat, dryRun: bool, action: Action, change: EndpointData, zones: seq<Zone>)
    requires Bounded(api, fuel) && action != CreateAction
    ensures HandleSpec(api, fuel, dryRun, action, Normalize(change), zones)
      == HandleSpec(api, fuel, dryRun, action, change, zones)
  {
    NormalizeIdempotent(change);
  }

  // -------------------------------------------------------------- one phase

  /** Every endpoint's handling, in queue order. */
  function Tasks(api: Api, fuel: nat, dryRun: bool, action: Action, changes: seq<EndpointData>, zones: seq<Zone>)
    : (r: seq<Handled>)
    requires Bounded(api, fuel)
    ensures |r| == |changes|
  {
    if changes == [] then []
    else
      Tasks(api, fuel, dryRun, action, changes[..|changes| - 1], zones)
        + [HandleSpec(api, fuel, dryRun, action, changes[|changes| - 1], zones)]
  }

  lemma {:induction false} TasksAll(api: Api, fuel: nat, dryRun: bool, action: Action, changes: seq<EndpointData>, zones: seq<Zone>)
    requires Bounded(api, fuel)
    ensures forall k :: 0 <= k < |changes| ==>
      Tasks(api, fuel, dryRun, action, changes, zones)[k] == HandleSpec(api, fuel, dryRun, action, changes[k], zones)
    decreases |changes|
  {
    hide HandleSpec;
    if changes != [] {
      var init := changes[..|changes| - 1];
      TasksAll(api, fuel, dryRun, action, init, zones);
      assert forall k :: 0 <= k < |init| ==> init[k] == changes[k];
    }
  }

  /** Before any handling nothing is sent and nothing is drained. */
  lemma CollectStart(hs: seq<Handled>)
    ensures Collect(hs[..0]) == Outcome([], Drained([]))
  {
    assert hs[..0] == [];
  }

  /** The error channel's first non-nil entry, of `before` then `next`. */
  function FirstError(before: Option<Error>, next: Option<Error>): Option<Error>
  {
    if before.Some? then before else next
  }

  /** Handlings run one after another: all their requests in order, and the
      first error among them. */
  function Collect(hs: seq<Handled>): Outcome
  {
    if hs == [] then Outcome([], None)
    else
      var before := Collect(hs[..|hs| - 1]);
      var last := hs[|hs| - 1];
      Outcome(before.calls + last.calls, FirstError(before.err, last.err))
  }

  lemma CollectNext(hs: seq<Handled>, i: nat)
    requires i < |hs|
    ensures var before := Collect(hs[..i]);
      Collect(hs[..i + 1]) == Outcome(before.calls + hs[i].calls, FirstError(before.err, hs[i].err))
  {
    assert hs[..i + 1][..i] == hs[..i];
  }

  /** Handling `k` is the first to fail, and it fails with `error`. */
  predicate FirstFailing(hs: seq<Handled>, k: int, error: Error)
  {
    && 0 <= k < |hs|
    && hs[k].err == Some(error)
    && forall j :: 0 <= j < k ==> hs[j].err.None?
  }

  /** The collected error is nil exactly when every handling returned nil, and
      otherwise it is the first handling's error in queue order. */
  lemma {:induction false} CollectFailsIff(hs: seq<Handled>)
    ensures Collect(hs).err.None? <==> forall k :: 0 <= k < |hs| ==> hs[k].err.None?
    ensures Collect(hs).err.Some? ==> exists k :: FirstFailing(hs, k, Collect(hs).err.value)
    decreases |hs|
  {
    if hs != [] {
      var init := hs[..|hs| - 1];
      var n := |hs| - 1;
      CollectFailsIff(init);
      assert forall k :: 0 <= k < |init| ==> init[k] == hs[k];
      var before := Collect(init);
      if before.err.Some? {
        var k :| FirstFailing(init, k, before.err.value);
        assert FirstFailing(hs, k, before.err.value);
      } else if hs[n].err.Some? {
        assert FirstFailing(hs, n, hs[n].err.value);
      }
    }
  }

  /** No handling is lost: the collected requests are exactly those of the
      handlings, each handling's requests in order, even after a failure. */
  lemma {:induction false} CollectCalls(hs: seq<Handled>)
    ensures forall k, c :: 0 <= k < |hs| && c in hs[k].calls ==> c in Collect(hs).calls
    ensures forall c :: c in Collect(hs).calls ==> exists k :: 0 <= k < |hs| && c in hs[k].calls
    decreases |hs|
  {
    if hs != [] {
      var init := hs[..|hs| - 1];
      CollectCalls(init);
      assert forall k :: 0 <= k < |init| ==> init[k] == hs[k];
      forall c | c in Collect(hs).calls
        ensures exists k :: 0 <= k < |hs| && c in hs[k].calls
      {
        if c in Collect(init).calls {
          var k :| 0 <= k < |init| && c in init[k].calls;
          assert c in hs[k].calls;
        } else {
          assert c in hs[|hs| - 1].calls;
        }
      }
    }
  }

  /** handleRRSetWithWorkers: the zones, then every endpoint's handling; the
      outcome is the zone listing's error, or else the first handling error. */
  function WorkersSpec(api: Api, fuel: nat, p: Provider, action: Action, changes: seq<EndpointData>): Outcome
    requires Bounded(api, fuel)
  {
    var z := ZonesSpec(api, p.domainFilters, fuel);
    if z.result.Err? then Outcome(z.calls, Some(z.result.error))
    else
      var c := Collect(Tasks(api, fuel, p.dryRun, action, changes, z.result.value));
      Outcome(z.calls + c.calls, c.err)
  }

  /** The endpoints' values after handleRRSetWithWorkers: untouched when the
      zones could not be listed, otherwise as their handlers left them. */
  function WorkersAfter(api: Api, fuel: nat, p: Provider, action: Action, changes: seq<EndpointData>)
    : (r: seq<EndpointData>)
    requires Bounded(api, fuel)
    ensures |r| == |changes|
  {
    var z := ZonesSpec(api, p.domainFilters, fuel);
    if z.result.Err? then changes
    else
      var hs := Tasks(api, fuel, p.dryRun, action, changes, z.result.value);
      seq(|changes|, k requires 0 <= k < |changes| => hs[k].after)
  }

  /** createRRSets, updateRRSets, deleteRRSets: an empty list is skipped. */
  function PhaseSpec(api: Api, fuel: nat, p: Provider, action: Action, changes: seq<EndpointData>): Outcome
    requires Bounded(api, fuel)
  {
    if |changes| == 0 then Outcome([], None) else WorkersSpec(api, fuel, p, action, changes)
  }

  /** An empty phase sends nothing and succeeds. */
  lemma EmptyPhase(api: Api, fuel: nat, p: Provider, action: Action)
    requires Bounded(api, fuel)
    ensures PhaseSpec(api, fuel, p, action, []) == Outcome([], None)
  {
  }

  /** Every request of the zone listing lists zones. */
  lemma ZonesCalls(api: Api, domainFilters: seq<string>, fuel: nat)
    requires Bounded(api, fuel)
    ensures forall c :: c in ZonesSpec(api, domainFilters, fuel).calls ==> c.List? && c.resource == ZonesResource
  {
    if |domainFilters| == 0 {
      NoFilterRequests(api, fuel);
    } else {
      PerFilterRequests(api, domainFilters, fuel);
    }
  }

  /** A non-empty phase lists the zones once, at its start, and then sends only
      record-set listings and mutations of its own action (none in a dry run).
      When the zones cannot be listed, their error is returned before any
      endpoint is handled. */
  lemma PhaseCalls(api: Api, fuel: nat, p: Provider, action: Action, changes: seq<EndpointData>)
    requires Bounded(api, fuel) && |changes| > 0
    ensures var z := ZonesSpec(api, p.domainFilters, fuel);
      var o := PhaseSpec(api, fuel, p, action, changes);
      && |z.calls| <= |o.calls|
      && o.calls[..|z.calls|] == z.calls
      && (forall c :: c in o.calls[|z.calls|..] ==> TaskCall(p.dryRun, action, c))
      && (z.result.Err? ==> o == Outcome(z.calls, Some(z.result.error)))
  {
    var z := ZonesSpec(api, p.domainFilters, fuel);
    if z.result.Ok? {
      var hs := Tasks(api, fuel, p.dryRun, action, changes, z.result.value);
      CollectCalls(hs);
      TasksAll(api, fuel, p.dryRun, action, changes, z.result.value);
      var o := PhaseSpec(api, fuel, p, action, changes);
      assert o.calls[|z.calls|..] == Collect(hs).calls;
      forall c | c in Collect(hs).calls
        ensures TaskCall(p.dryRun, action, c)
      {
        var k :| 0 <= k < |hs| && c in hs[k].calls;
        HandleCalls(api, fuel, p.dryRun, action, changes[k], z.result.value);
      }
    }
  }

  /** Every request of a phase lists zones or record sets, or is a mutation of
      the phase's action, and in a dry run it is a listing. */
  lemma PhaseCallKinds(api: Api, fuel: nat, p: Provider, action: Action, changes: seq<EndpointData>)
    requires Bounded(api, fuel)
    ensures forall c :: c in PhaseSpec(api, fuel, p, action, changes).calls ==>
      (c.List? || ActionCall(action, c)) && (p.dryRun ==> c.List?)
  {
    hide WorkersSpec, ZonesSpec, Tasks, HandleSpec, Collect;
    if |changes| > 0 {
      var z := ZonesSpec(api, p.domainFilters, fuel);
      var o := PhaseSpec(api, fuel, p, action, changes);
      PhaseCalls(api, fuel, p, action, changes);
      ZonesCalls(api, p.domainFilters, fuel);
      forall c | c in o.calls
        ensures (c.List? || ActionCall(action, c)) && (p.dryRun ==> c.List?)
      {
        var i :| 0 <= i < |o.calls| && o.calls[i] == c;
        if i < |z.calls| {
          assert c == o.calls[..|z.calls|][i];
          assert c in z.calls;
        } else {
          assert c == o.calls[|z.calls|..][i - |z.calls|];
          assert c in o.calls[|z.calls|..];
          assert TaskCall(p.dryRun, action, c);
        }
      }
    }
  }

  /** Once the zones are listed, the phase fails exactly when some endpoint's
      handling fails, with the error of the first failing endpoint in list
      order; every endpoint is handled, and sends its requests, even after an
      earlier one has failed. */
  lemma PhaseFailsIff(api: Api, fuel: nat, p: Provider, action: Action, changes: seq<EndpointData>)
    requires Bounded(api, fuel) && |changes| > 0
    requires ZonesSpec(api, p.domainFilters, fuel).result.Ok?
    ensures var zones := ZonesSpec(api, p.domainFilters, fuel).result.value;
      var o := PhaseSpec(api, fuel, p, action, changes);
      o.err.None? <==> forall k :: 0 <= k < |changes| ==> HandleSpec(api, fuel, p.dryRun, action, changes[k], zones).err.None?
    ensures var zones := ZonesSpec(api, p.domainFilters, fuel).result.value;
      var o := PhaseSpec(api, fuel, p, action, changes);
      o.err.Some? ==> exists k :: FirstFailing(Tasks(api, fuel, p.dryRun, action, changes, zones), k, o.err.value)
    ensures var zones := ZonesSpec(api, p.domainFilters, fuel).result.value;
      var o := PhaseSpec(api, fuel, p, action, changes);
      forall k, c :: 0 <= k < |changes| && c in HandleSpec(api, fuel, p.dryRun, action, changes[k], zones).calls ==> c in o.calls
  {
    hide HandleSpec, ZonesSpec, Tasks;
    var zones := ZonesSpec(api, p.domainFilters, fuel).result.value;
    var hs := Tasks(api, fuel, p.dryRun, action, changes, zones);
    TasksAll(api, fuel, p.dryRun, action, changes, zones);
    CollectFailsIff(hs);
    CollectCalls(hs);
  }

  /** Every endpoint of a phase ends as it was or normalised. */
  lemma WorkersAfterNormalizes(api: Api, fuel: nat, p: Provider, action: Action, changes: seq<EndpointData>)
    requires Bounded(api, fuel)
    ensures forall k :: 0 <= k < |changes| ==>
      NormalizedFrom(WorkersAfter(api, fuel, p, action, changes)[k], changes[k])
  {
    var z := ZonesSpec(api, p.domainFilters, fuel);
    if z.result.Ok? {
      TasksAll(api, fuel, p.dryRun, action, changes, z.result.value);
    }
  }

  /** `now` is `before`, or `before` normalised. */
  predicate NormalizedFrom(now: EndpointData, before: EndpointData)
  {
    now == before || now == Normalize(before)
  }

  lemma NormalizedFromTrans(a: EndpointData, b: EndpointData, c: EndpointData)
    requires NormalizedFrom(a, b) && NormalizedFrom(b, c)
    ensures NormalizedFrom(a, c)
  {
    NormalizeIdempotent(c);
  }

  /** Each of `now` is the matching one of `before`, or it normalised. */
  predicate AllNormalizedFrom(now: seq<EndpointData>, before: seq<EndpointData>)
  {
    |now| == |before| && forall k :: 0 <= k < |now| ==> NormalizedFrom(now[k], before[k])
  }

  lemma AllNormalizedFromTrans(a: seq<EndpointData>, b: seq<EndpointData>, c: seq<EndpointData>)
    requires AllNormalizedFrom(a, b) && AllNormalizedFrom(b, c)
    ensures AllNormalizedFrom(a, c)
  {
    forall k | 0 <= k < |a|
      ensures NormalizedFrom(a[k], c[k])
    {
      NormalizedFromTrans(a[k], b[k], c[k]);
    }
  }

  /** An update or delete phase over endpoints that an earlier phase may have
      normalised behaves as over the original endpoints. */
  lemma PhaseNormalized(api: Api, fuel: nat, p: Provider, action: Action, now: seq<EndpointData>, before: seq<EndpointData>)
    requires Bounded(api, fuel) && action != CreateAction && AllNormalizedFrom(now, before)
    ensures PhaseSpec(api, fuel, p, action, now) == PhaseSpec(api, fuel, p, action, before)
  {
    var z := ZonesSpec(api, p.domainFilters, fuel);
    if |now| > 0 && z.result.Ok? {
      var zones := z.result.value;
      TasksAll(api, fuel, p.dryRun, action, now, zones);
      TasksAll(api, fuel, p.dryRun, action, before, zones);
      forall k | 0 <= k < |now|
        ensures HandleSpec(api, fuel, p.dryRun, action, now[k], zones) == HandleSpec(api, fuel, p.dryRun, action, before[k], zones)
      {
        HandleNormalized(api, fuel, p.dryRun, action, before[k], zones);
      }
      assert Tasks(api, fuel, p.dryRun, action, now, zones) == Tasks(api, fuel, p.dryRun, action, before, zones);
    }
  }

  // ------------------------------------------------------------ the whole plan

  /** Three phases one after another: the first failing phase ends the run,
      and a later phase sends nothing. */
  function Sequence(c: Outcome, u: Outcome, d: Outcome): Outcome
  {
    if c.err.Some? then c
    else if u.err.Some? then Outcome(c.calls + u.calls, u.err)
    else Outcome(c.calls + u.calls + d.calls, d.err)
  }

  /** A failing first phase is the whole run. After a successful one, the rest
      of the run is the update and delete phases on their own, behind the first
      phase's requests. */
  lemma SequenceAfter(c: Outcome, u: Outcome, d: Outcome)
    ensures c.err.Some? ==> Sequence(c, u, d) == c
    ensures c.err.None? ==>
      var rest := Sequence(Outcome([], None), u, d);
      Sequence(c, u, d) == Outcome(c.calls + rest.calls, rest.err)
  {
    if c.err.Some? {
    } else if u.err.None? {
      assert c.calls + u.calls + d.calls == c.calls + ([] + u.calls + d.calls);
    } else {
      assert c.calls + u.calls == c.calls + ([] + u.calls);
    }
  }

  /** The create, update and delete phases in that order. */
  function PlanSpec(api: Api, fuel: nat, p: Provider,
                    creates: seq<EndpointData>, updates: seq<EndpointData>, deletes: seq<EndpointData>): Outcome
    requires Bounded(api, fuel)
  {
    Sequence(PhaseSpec(api, fuel, p, CreateAction, creates),
             PhaseSpec(api, fuel, p, UpdateAction, updates),
             PhaseSpec(api, fuel, p, DeleteAction, deletes))
  }

  /** ApplyChanges: without a token, its error and no request; otherwise the
      three phases. */
  function ApplySpec(api: Api, fuel: nat, p: Provider, token: Result<string, Error>,
                     creates: seq<EndpointData>, updates: seq<EndpointData>, deletes: seq<EndpointData>): Outcome
    requires Bounded(api, fuel)
  {
    if token.Err? then Outcome([], Some(token.error)) else PlanSpec(api, fuel, p, creates, updates, deletes)
  }

  /** Every creation comes before every update, and every update before every deletion. */
  predicate Ordered(calls: seq<Call>)
  {
    && (forall i, j :: 0 <= i < j < |calls| && calls[j].Create? ==> !calls[i].Update? && !calls[i].Delete?)
    && (forall i, j :: 0 <= i < j < |calls| && calls[j].Update? ==> !calls[i].Delete?)
  }

  /** Requests that mutate only by creating, then only by updating, then only
      by deleting are in phase order. */
  lemma OrderedConcat(a: seq<Call>, b: seq<Call>, d: seq<Call>)
    requires forall c :: c in a ==> c.List? || c.Create?
    requires forall c :: c in b ==> c.List? || c.Update?
    requires forall c :: c in d ==> c.List? || c.Delete?
    ensures Ordered(a + b + d)
  {
    var calls := a + b + d;
    forall i | 0 <= i < |calls|
      ensures i < |a| ==> calls[i].List? || calls[i].Create?
      ensures |a| <= i < |a| + |b| ==> calls[i].List? || calls[i].Update?
      ensures |a| + |b| <= i ==> calls[i].List? || calls[i].Delete?
    {
      if i < |a| {
        assert calls[i] == a[i] && a[i] in a;
      } else if i < |a| + |b| {
        assert calls[i] == b[i - |a|] && b[i - |a|] in b;
      } else {
        assert calls[i] == d[i - |a| - |b|] && d[i - |a| - |b|] in d;
      }
    }
  }

  /** The phases run in order: every creation is sent before every update, and
      every update before every deletion. A failing phase starts no later phase:
      after a failed creation phase no update or deletion is sent at all, and
      after a failed update phase no deletion. */
  lemma ApplyOrder(api: Api, fuel: nat, p: Provider, token: Result<string, Error>,
                   creates: seq<EndpointData>, updates: seq<EndpointData>, deletes: seq<EndpointData>)
    requires Bounded(api, fuel)
    ensures Ordered(ApplySpec(api, fuel, p, token, creates, updates, deletes).calls)
    ensures token.Ok? && PhaseSpec(api, fuel, p, CreateAction, creates).err.Some? ==>
      forall c :: c in ApplySpec(api, fuel, p, token, creates, updates, deletes).calls ==> !c.Update? && !c.Delete?
    ensures (token.Ok? && PhaseSpec(api, fuel, p, CreateAction, creates).err.None?
             && PhaseSpec(api, fuel, p, UpdateAction, updates).err.Some?) ==>
      forall c :: c in ApplySpec(api, fuel, p, token, creates, updates, deletes).calls ==> !c.Delete?
  {
    hide PhaseSpec;
    if token.Ok? {
      var c := PhaseSpec(api, fuel, p, CreateAction, creates);
      var u := PhaseSpec(api, fuel, p, UpdateAction, updates);
      var d := PhaseSpec(api, fuel, p, DeleteAction, deletes);
      PhaseCallKinds(api, fuel, p, CreateAction, creates);
      PhaseCallKinds(api, fuel, p, UpdateAction, updates);
      PhaseCallKinds(api, fuel, p, DeleteAction, deletes);
      if c.err.Some? {
        OrderedConcat(c.calls, [], []);
        assert c.calls + [] + [] == c.calls;
      } else if u.err.Some? {
        OrderedConcat(c.calls, u.calls, []);
        assert c.calls + u.calls + [] == c.calls + u.calls;
      } else {
        OrderedConcat(c.calls, u.calls, d.calls);
      }
    } else {
      assert Ordered([]);
    }
  }

  /** A dry run sends only listings: no record set is created, patched or deleted. */
  lemma DryRunSendsNoMutation(api: Api, fuel: nat, p: Provider, token: Result<string, Error>,
                              creates: seq<EndpointData>, updates: seq<EndpointData>, deletes: seq<EndpointData>)
    requires Bounded(api, fuel) && p.dryRun
    ensures forall c :: c in ApplySpec(api, fuel, p, token, creates, updates, deletes).calls ==> c.List?
  {
    PhaseCallKinds(api, fuel, p, CreateAction, creates);
    PhaseCallKinds(api, fuel, p, UpdateAction, updates);
    PhaseCallKinds(api, fuel, p, DeleteAction, deletes);
  }

  /** The plan succeeds exactly when it has a token and all three phases
      succeed, and then it sends the three phases' requests in order. */
  lemma ApplyOkIff(api: Api, fuel: nat, p: Provider, token: Result<string, Error>,
                   creates: seq<EndpointData>, updates: seq<EndpointData>, deletes: seq<EndpointData>)
    requires Bounded(api, fuel)
    ensures var a := ApplySpec(api, fuel, p, token, creates, updates, deletes);
      var c := PhaseSpec(api, fuel, p, CreateAction, creates);
      var u := PhaseSpec(api, fuel, p, UpdateAction, updates);
      var d := PhaseSpec(api, fuel, p, DeleteAction, deletes);
      && (a.err.None? <==> token.Ok? && c.err.None? && u.err.None? && d.err.None?)
      && (a.err.None? ==> a.calls == c.calls + u.calls + d.calls)
      && (token.Err? ==> a.calls == [])
  {
  }

  // ------------------------------------------------------------------ methods

  /** createRRSet. */
  method CreateRRSet(client: Client, dryRun: bool, change: Endpoint, zones: seq<Zone>) returns (err: Option<Error>)
    requires client.Valid()
    modifies client, change
    ensures var h := CreateSpec(client.api, dryRun, old(change.Data()), zones);
      err == h.err && client.log == old(client.log) + h.calls && change.Data() == h.after
  {
    var resultZone := FindBestMatchingZone(change.dnsName, zones);
    if resultZone.None? {
      return Some(NoMatchingZone(change.dnsName));
    }
    if dryRun {
      return None;
    }
    ModifyChange(change);
    var rrSet := GetRRSetRecord(change);
    err := client.CreateRRSet(resultZone.value.id, rrSet);
  }

  /** updateRRSet. */
  method UpdateRRSet(client: Client, dryRun: bool, change: Endpoint, zones: seq<Zone>) returns (err: Option<Error>)
    requires client.Valid()
    modifies client, change
    ensures var h := UpdateSpec(client.api, client.bound, dryRun, old(change.Data()), zones);
      err == h.err && client.log == old(client.log) + h.calls && change.Data() == h.after
  {
    ModifyChange(change);
    var resolved := GetRRSetForUpdateDeletion(client, change, zones);
    if resolved.Err? {
      return Some(resolved.error);
    }
    if dryRun {
      return None;
    }
    var (resultZone, resultRRSet) := resolved.value;
    var rrSet := GetRRSetRecord(change);
    err := client.UpdateRRSet(resultZone.id, resultRRSet.id, rrSet);
  }

  /** deleteRRSet. */
  method DeleteRRSet(client: Client, dryRun: bool, change: Endpoint, zones: seq<Zone>) returns (err: Option<Error>)
    requires client.Valid()
    modifies client, change
    ensures var h := DeleteSpec(client.api, client.bound, dryRun, old(change.Data()), zones);
      err == h.err && client.log == old(client.log) + h.calls && change.Data() == h.after
  {
    ModifyChange(change);
    var resolved := GetRRSetForUpdateDeletion(client, change, zones);
    if resolved.Err? {
      return Some(resolved.error);
    }
    if dryRun {
      return None;
    }
    var (resultZone, resultRRSet) := resolved.value;
    err := client.DeleteRRSet(resultZone.id, resultRRSet.id);
  }

  /** One task taken by changeWorker: the handler of its action. */
  method HandleChange(client: Client, dryRun: bool, action: Action, change: Endpoint, zones: seq<Zone>)
    returns (err: Option<Error>)
    requires client.Valid()
    modifies client, change
    ensures var h := HandleSpec(client.api, client.bound, dryRun, action, old(change.Data()), zones);
      err == h.err && client.log == old(client.log) + h.calls && change.Data() == h.after
  {
    match action
    case CreateAction => err := CreateRRSet(client, dryRun, change, zones);
    case UpdateAction => err := UpdateRRSet(client, dryRun, change, zones);
    case DeleteAction => err := DeleteRRSet(client, dryRun, change, zones);
  }

  /** The workers: every endpoint handled in queue order; each handler's error
      queues up in `errs`, the buffered error channel. An endpoint listed more
      than once is handled each time, as HandleAgain says, alike. */
  method ProcessTasks(client: Client, dryRun: bool, action: Action, endpoints: seq<Endpoint>, zones: seq<Zone>)
    returns (errs: seq<Option<Error>>)
    requires client.Valid()
    modifies client, set e | e in endpoints
    ensures var hs := Tasks(client.api, client.bound, dryRun, action, old(Datas(endpoints)), zones);
      && Drained(errs) == Collect(hs).err && client.log == old(client.log) + Collect(hs).calls
      && forall k :: 0 <= k < |endpoints| ==> endpoints[k].Data() == hs[k].after
  {
    hide Tasks, HandleSpec, Collect, Drained, Datas, Normalize;
    ghost var ds := Datas(endpoints);
    ghost var hs := Tasks(client.api, client.bound, dryRun, action, ds, zones);
    errs := [];
    CollectStart(hs);
    ghost var sent: seq<Call> := [];
    for i := 0 to |endpoints|
      invariant Collect(hs[..i]) == Outcome(sent, Drained(errs))
      invariant client.log == old(client.log) + sent
      invariant forall k :: 0 <= k < |endpoints| ==> endpoints[k].Data() == ds[k] || endpoints[k].Data() == hs[k].after
      invariant forall k :: 0 <= k < i ==> endpoints[k].Data() == hs[k].after
    {
      var err, added := HandleTaskAt(client, dryRun, action, endpoints, zones, i, ds, sent, errs);
      sent := sent + added;
      errs := errs + [err];
    }
    assert hs[..|endpoints|] == hs;
  }

  /** One endpoint taken from the queue: it was not handled yet, or was handled
      before under another position in the queue and so is handled alike. */
  method HandleTaskAt(client: Client, dryRun: bool, action: Action, endpoints: seq<Endpoint>, zones: seq<Zone>,
                      i: nat, ghost ds: seq<EndpointData>, ghost sent: seq<Call>, ghost errs: seq<Option<Error>>)
    returns (err: Option<Error>, ghost added: seq<Call>)
    requires client.Valid() && i < |endpoints| && |ds| == |endpoints|
    requires var hs := Tasks(client.api, client.bound, dryRun, action, ds, zones);
      && Collect(hs[..i]) == Outcome(sent, Drained(errs))
      && (endpoints[i].Data() == ds[i] || endpoints[i].Data() == hs[i].after)
    requires forall k :: 0 <= k < |endpoints| && endpoints[k] == endpoints[i] ==> ds[k] == ds[i]
    modifies client, endpoints[i]
    ensures var hs := Tasks(client.api, client.bound, dryRun, action, ds, zones);
      && Collect(hs[..i + 1]) == Outcome(sent + added, Drained(errs + [err]))
      && client.log == old(client.log) + added
      && forall k :: 0 <= k < |endpoints| && endpoints[k] == endpoints[i] ==> endpoints[k].Data() == hs[k].after
  {
    hide HandleSpec, Tasks;
    ghost var hs := Tasks(client.api, client.bound, dryRun, action, ds, zones);
    TasksAll(client.api, client.bound, dryRun, action, ds, zones);
    HandleAgain(client.api, client.bound, dryRun, action, ds[i], zones);
    CollectNext(hs, i);
    err := HandleChange(client, dryRun, action, endpoints[i], zones);
    added := hs[i].calls;
    assert (errs + [err])[..|errs|] == errs;
  }

  /** The drain of the error channel: the first non-nil error, else nil. */
  function Drained(errs: seq<Option<Error>>): Option<Error>
  {
    if errs == [] then None else FirstError(Drained(errs[..|errs| - 1]), errs[|errs| - 1])
  }

  lemma {:induction false} DrainedStops(errs: seq<Option<Error>>, k: nat)
    requires k <= |errs| && Drained(errs[..k]).Some?
    ensures Drained(errs) == Drained(errs[..k])
    decreases |errs|
  {
    if k < |errs| {
      var init := errs[..|errs| - 1];
      assert init[..k] == errs[..k];
      DrainedStops(init, k);
    } else {
      assert errs[..k] == errs;
    }
  }

  /** The loop that drains the error channel: the first non-nil error ends it. */
  method DrainErrors(errs: seq<Option<Error>>) returns (err: Option<Error>)
    ensures err == Drained(errs)
  {
    for i := 0 to |errs|
      invariant Drained(errs[..i]) == None
    {
      assert errs[..i + 1][..i] == errs[..i];
      if errs[i].Some? {
        DrainedStops(errs, i + 1);
        return errs[i];
      }
    }
    assert errs[..|errs|] == errs;
    return None;
  }

  /** handleRRSetWithWorkers: the zones, then the workers, then the drain. */
  method HandleRRSetWithWorkers(client: Client, p: Provider, endpoints: seq<Endpoint>, action: Action)
    returns (err: Option<Error>)
    requires client.Valid() && p.workers >= 1
    modifies client, set e | e in endpoints
    ensures var w := WorkersSpec(client.api, client.bound, p, action, old(Datas(endpoints)));
      err == w.err && client.log == old(client.log) + w.calls
    ensures forall k :: 0 <= k < |endpoints| ==>
      endpoints[k].Data() == WorkersAfter(client.api, client.bound, p, action, old(Datas(endpoints)))[k]
  {
    hide ZonesSpec, Tasks, HandleSpec, Collect;
    var zones := Zones(client, p.domainFilters);
    if zones.Err? {
      return Some(zones.error);
    }
    var errs := ProcessTasks(client, p.dryRun, action, endpoints, zones.value);
    err := DrainErrors(errs);
  }

  /** createRRSets, updateRRSets and deleteRRSets: a non-empty list goes to the
      workers. Every endpoint of the plan's lists `creates`, `updates` and
      `deletes` ends as it was or normalised. */
  method Phase(client: Client, p: Provider, endpoints: seq<Endpoint>, action: Action,
               ghost creates: seq<Endpoint>, ghost updates: seq<Endpoint>, ghost deletes: seq<Endpoint>)
    returns (err: Option<Error>)
    requires client.Valid() && p.workers >= 1
    modifies client, set e | e in endpoints
    ensures var o := PhaseSpec(client.api, client.bound, p, action, old(Datas(endpoints)));
      err == o.err && client.log == old(client.log) + o.calls
    ensures AllNormalizedFrom(Datas(creates), old(Datas(creates)))
    ensures AllNormalizedFrom(Datas(updates), old(Datas(updates)))
    ensures AllNormalizedFrom(Datas(deletes), old(Datas(deletes)))
  {
    hide WorkersSpec, ZonesSpec, Tasks, HandleSpec, Collect, Normalize, Bounded;
    if |endpoints| == 0 {
      return None;
    }
    ghost var ds := Datas(endpoints);
    err := HandleRRSetWithWorkers(client, p, endpoints, action);
    WorkersAfterNormalizes(client.api, client.bound, p, action, ds);
    KeptOrNormalized(endpoints, ds, creates, old(Datas(creates)));
    KeptOrNormalized(endpoints, ds, updates, old(Datas(updates)));
    KeptOrNormalized(endpoints, ds, deletes, old(Datas(deletes)));
  }

  /** When every endpoint of `endpoints` ends as it was (`ds`) or normalised,
      and every other endpoint is untouched, the same holds for any list `eps`. */
  lemma KeptOrNormalized(endpoints: seq<Endpoint>, ds: seq<EndpointData>, eps: seq<Endpoint>, before: seq<EndpointData>)
    requires |ds| == |endpoints| && |before| == |eps|
    requires forall k :: 0 <= k < |endpoints| ==> NormalizedFrom(endpoints[k].Data(), ds[k])
    requires forall k :: 0 <= k < |eps| && eps[k] !in endpoints ==> eps[k].Data() == before[k]
    requires forall k, j :: 0 <= k < |eps| && 0 <= j < |endpoints| && eps[k] == endpoints[j] ==> before[k] == ds[j]
    ensures AllNormalizedFrom(Datas(eps), before)
  {
    forall k | 0 <= k < |eps|
      ensures NormalizedFrom(eps[k].Data(), before[k])
    {
      if eps[k] in endpoints {
        var j :| 0 <= j < |endpoints| && endpoints[j] == eps[k];
      }
    }
  }

  /** ApplyChanges: the token, then the creations, updates and deletions in
      that order, each phase run only if the ones before it succeeded. */
  method ApplyChanges(client: Client, p: Provider, token: Result<string, Error>,
                      creates: seq<Endpoint>, updates: seq<Endpoint>, deletes: seq<Endpoint>)
    returns (err: Option<Error>)
    requires client.Valid() && p.workers >= 1
    modifies client, set e | e in creates + updates + deletes
    ensures var a := ApplySpec(client.api, client.bound, p, token, old(Datas(creates)), old(Datas(updates)), old(Datas(deletes)));
      err == a.err && client.log == old(client.log) + a.calls
    ensures AllNormalizedFrom(Datas(creates), old(Datas(creates)))
    ensures AllNormalizedFrom(Datas(updates), old(Datas(updates)))
    ensures AllNormalizedFrom(Datas(deletes), old(Datas(deletes)))
  {
    hide PlanSpec;
    if token.Err? {
      return Some(token.error);
    }
    err := ApplyPhases(client, p, creates, updates, deletes);
  }

  /** The three phases, once the client exists. */
  method ApplyPhases(client: Client, p: Provider, creates: seq<Endpoint>, updates: seq<Endpoint>, deletes: seq<Endpoint>)
    returns (err: Option<Error>)
    requires client.Valid() && p.workers >= 1
    modifies client, set e | e in creates + updates + deletes
    ensures var a := PlanSpec(client.api, client.bound, p, old(Datas(creates)), old(Datas(updates)), old(Datas(deletes)));
      err == a.err && client.log == old(client.log) + a.calls
    ensures AllNormalizedFrom(Datas(creates), old(Datas(creates)))
    ensures AllNormalizedFrom(Datas(updates), old(Datas(updates)))
    ensures AllNormalizedFrom(Datas(deletes), old(Datas(deletes)))
  {
    hide PhaseSpec, WorkersSpec, ZonesSpec, Tasks, HandleSpec, Collect, Bounded, Datas, AllNormalizedFrom, NormalizedFrom, Normalize;
    ghost var cs := Datas(creates);
    ghost var us := Datas(updates);
    ghost var dels := Datas(deletes);
    ghost var log0 := client.log;
    ghost var c := PhaseSpec(client.api, client.bound, p, CreateAction, cs);
    ghost var u := PhaseSpec(client.api, client.bound, p, UpdateAction, us);
    ghost var d := PhaseSpec(client.api, client.bound, p, DeleteAction, dels);
    assert PlanSpec(client.api, client.bound, p, cs, us, dels) == Sequence(c, u, d);
    SequenceAfter(c, u, d);
    hide PlanSpec, Sequence;
    err := Phase(client, p, creates, CreateAction, creates, updates, deletes);
    if err.Some? {
      return;
    }
    ghost var log1 := client.log;
    ghost var cs1 := Datas(creates);
    ghost var us1 := Datas(updates);
    ghost var dels1 := Datas(deletes);
    err := UpdateThenDelete(client, p, creates, updates, deletes, us, dels);
    ghost var rest := Sequence(Outcome([], None), u, d);
    assert client.log == log1 + rest.calls == log0 + (c.calls + rest.calls);
    AllNormalizedFromTrans(Datas(creates), cs1, cs);
    AllNormalizedFromTrans(Datas(updates), us1, us);
    AllNormalizedFromTrans(Datas(deletes), dels1, dels);
  }

  /** The update phase and, unless it failed, the delete phase, over endpoints
      that may have been normalised since `us` and `dels` were their values. */
  method UpdateThenDelete(client: Client, p: Provider, creates: seq<Endpoint>, updates: seq<Endpoint>, deletes: seq<Endpoint>,
                          ghost us: seq<EndpointData>, ghost dels: seq<EndpointData>)
    returns (err: Option<Error>)
    requires client.Valid() && p.workers >= 1
    requires AllNormalizedFrom(Datas(updates), us) && AllNormalizedFrom(Datas(deletes), dels)
    modifies client, set e | e in updates + deletes
    ensures var a := Sequence(Outcome([], None),
                              PhaseSpec(client.api, client.bound, p, UpdateAction, us),
                              PhaseSpec(client.api, client.bound, p, DeleteAction, dels));
      err == a.err && client.log == old(client.log) + a.calls
    ensures AllNormalizedFrom(Datas(creates), old(Datas(creates)))
    ensures AllNormalizedFrom(Datas(updates), old(Datas(updates)))
    ensures AllNormalizedFrom(Datas(deletes), old(Datas(deletes)))
  {
    hide PhaseSpec, WorkersSpec, ZonesSpec, Tasks, HandleSpec, Collect, Bounded, Datas, AllNormalizedFrom, NormalizedFrom, Normalize;
    ghost var cs := Datas(creates);
    ghost var us0 := Datas(updates);
    ghost var dels0 := Datas(deletes);
    PhaseNormalized(client.api, client.bound, p, UpdateAction, Datas(updates), us);
    err := Phase(client, p, updates, UpdateAction, creates, updates, deletes);
    if err.Some? {
      return;
    }
    ghost var cs1 := Datas(creates);
    ghost var us1 := Datas(updates);
    ghost var dels1 := Datas(deletes);
    AllNormalizedFromTrans(dels1, dels0, dels);
    PhaseNormalized(client.api, client.bound, p, DeleteAction, dels1, dels);
    err := Phase(client, p, deletes, DeleteAction, creates, updates, deletes);
    AllNormalizedFromTrans(Datas(creates), cs1, cs);
    AllNormalizedFromTrans(Datas(updates), us1, us0);
    AllNormalizedFromTrans(Datas(deletes), dels1, dels0);
  }
}
