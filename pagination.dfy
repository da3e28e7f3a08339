/** The offset-pagination loop shared by fetchZones (zone_fetcher.go) and
    fetchRecords (rrset_fetcher.go), as a function of the server's answers: the
    requests it sends and the list it returns. */
module Pagination {
  import opened Wrappers
  import opened DomainsApi

  const PageLimit: string := "1000"

  /** The first request: the caller's options with `limit=1000` and `offset=0`. */
  function FirstPage(options: Query): (q: Query)
    ensures "limit" in q && q["limit"] == "1000"
    ensures "offset" in q && q["offset"] == "0"
    ensures forall k :: k in options && k != "limit" && k != "offset" ==> k in q && q[k] == options[k]
    ensures forall k :: k in q ==> k in options || k == "limit" || k == "offset"
  {
    options["limit" := PageLimit]["offset" := "0"]
  }

  /** The requests a fetch sent, in order, and its outcome. */
  datatype Fetched<T> = Fetched(calls: seq<Call>, result: Result<seq<T>, Error>)

  /** `calls` sent first, with `items` in front of what the rest collects. */
  function Then<T>(calls: seq<Call>, items: seq<T>, rest: Fetched<T>): Fetched<T>
  {
    Fetched(calls + rest.calls, if rest.result.Ok? then Ok(items + rest.result.value) else rest.result)
  }

  lemma ThenNothing<T>(f: Fetched<T>)
    ensures Then([], [], f) == f
  {
    assert [] + f.calls == f.calls;
    if f.result.Ok? {
      assert [] + f.result.value == f.result.value;
    }
  }

  lemma ThenThen<T>(calls: seq<Call>, items: seq<T>, calls': seq<Call>, items': seq<T>, rest: Fetched<T>)
    ensures Then(calls, items, Then(calls', items', rest)) == Then(calls + calls', items + items', rest)
  {
    assert calls + (calls' + rest.calls) == (calls + calls') + rest.calls;
    if rest.result.Ok? {
      assert items + (items' + rest.result.value) == (items + items') + rest.result.value;
    }
  }

  /** Request `q` of `resource`, then follow the next offset until a page says 0;
      an error ends the fetch with no partial list. */
  function Paginate<T>(list: Query -> Result<Page<T>, Error>, resource: Resource, q: Query, fuel: nat): Fetched<T>
    requires EndsWithin(list, q, fuel)
    decreases fuel
  {
    match list(q)
    case Err(e) => Fetched([List(resource, q)], Err(e))
    case Ok(page) =>
      if page.nextOffset == 0 then Fetched([List(resource, q)], Ok(page.items))
      else Then([List(resource, q)], page.items, Paginate(list, resource, AtOffset(q, page.nextOffset), fuel - 1))
  }

  /** Fetches run one after another: their requests and items concatenated in
      order, until the first failing fetch ends the run with its error. */
  function Concat<T>(fs: seq<Fetched<T>>): Fetched<T>
  {
    if fs == [] then Fetched([], Ok([]))
    else
      var before := Concat(fs[..|fs| - 1]);
      if before.result.Err? then before else Then(before.calls, before.result.value, fs[|fs| - 1])
  }

  /** After the first `i` fetches succeeded with `calls` and `items`, fetch `i`
      either adds its requests and items, or ends the whole run with its error. */
  lemma ConcatNext<T>(fs: seq<Fetched<T>>, i: nat, calls: seq<Call>, items: seq<T>)
    requires i < |fs| && Concat(fs[..i]) == Fetched(calls, Ok(items))
    ensures fs[i].result.Ok? ==> Concat(fs[..i + 1]) == Fetched(calls + fs[i].calls, Ok(items + fs[i].result.value))
    ensures fs[i].result.Err? ==> Concat(fs) == Fetched(calls + fs[i].calls, fs[i].result)
  {
    assert fs[..i + 1][..i] == fs[..i];
    if fs[i].result.Err? {
      ConcatStops(fs, i + 1);
    }
  }

  /** Once a fetch has failed, the fetches after it send nothing and change nothing. */
  lemma {:induction false} ConcatStops<T>(fs: seq<Fetched<T>>, k: nat)
    requires k <= |fs| && Concat(fs[..k]).result.Err?
    ensures Concat(fs) == Concat(fs[..k])
    decreases |fs|
  {
    if k < |fs| {
      var init := fs[..|fs| - 1];
      assert init[..k] == fs[..k];
      ConcatStops(init, k);
    } else {
      assert fs[..k] == fs;
    }
  }

  /** The run succeeds exactly when every fetch succeeds. */
  lemma {:induction false} ConcatOkIff<T>(fs: seq<Fetched<T>>)
    ensures Concat(fs).result.Ok? <==> forall j :: 0 <= j < |fs| ==> fs[j].result.Ok?
    decreases |fs|
  {
    if fs != [] {
      var init := fs[..|fs| - 1];
      ConcatOkIff(init);
      if Concat(init).result.Ok? {
        assert forall j :: 0 <= j < |init| ==> init[j] == fs[j];
      } else {
        var j :| 0 <= j < |init| && !init[j].result.Ok?;
        assert init[j] == fs[j];
      }
    }
  }

  /** The first failing fetch decides the outcome: its error, verbatim, after the
      requests of the fetches before it and its own. */
  lemma ConcatFirstFailure<T>(fs: seq<Fetched<T>>, k: nat)
    requires k < |fs| && fs[k].result.Err?
    requires forall j :: 0 <= j < k ==> fs[j].result.Ok?
    ensures Concat(fs).result == fs[k].result
    ensures Concat(fs).calls == Concat(fs[..k]).calls + fs[k].calls
  {
    ConcatOkIff(fs[..k]);
    assert forall j :: 0 <= j < k ==> fs[..k][j] == fs[j];
    ConcatNext(fs, k, Concat(fs[..k]).calls, Concat(fs[..k]).result.value);
  }

  /** Running `a + b` is running `a`, then, unless that failed, `b`. */
  lemma {:induction false} ConcatAppend<T>(a: seq<Fetched<T>>, b: seq<Fetched<T>>)
    ensures var fa := Concat(a);
      Concat(a + b) == if fa.result.Err? then fa else Then(fa.calls, fa.result.value, Concat(b))
    decreases |b|
  {
    var fa := Concat(a);
    if b == [] {
      assert a + b == a;
      if fa.result.Ok? {
        assert fa.calls + [] == fa.calls && fa.result.value + [] == fa.result.value;
      }
    } else {
      var init := b[..|b| - 1];
      assert (a + b)[..|a + b| - 1] == a + init;
      assert (a + b)[|a + b| - 1] == b[|b| - 1];
      ConcatAppend(a, init);
      if fa.result.Ok? {
        var fi := Concat(init);
        if fi.result.Ok? {
          ThenThen(fa.calls, fa.result.value, fi.calls, fi.result.value, b[|b| - 1]);
        }
      }
    }
  }

  /** Every request of the run is a request of one of its fetches. */
  lemma {:induction false} ConcatCalls<T>(fs: seq<Fetched<T>>)
    ensures forall c :: c in Concat(fs).calls ==> exists j :: 0 <= j < |fs| && c in fs[j].calls
    decreases |fs|
  {
    if fs != [] {
      var init := fs[..|fs| - 1];
      ConcatCalls(init);
      forall c | c in Concat(fs).calls
        ensures exists j :: 0 <= j < |fs| && c in fs[j].calls
      {
        if c in Concat(init).calls {
          var j :| 0 <= j < |init| && c in init[j].calls;
          assert init[j] == fs[j];
        } else {
          assert c in fs[|fs| - 1].calls;
        }
      }
    }
  }

  /** One page of the loop, seen from a fetch that has already sent `calls` and
      collected `items`: a page with a non-zero next offset moves its request
      and items in front, and leaves the rest of the fetch to that offset. */
  lemma PaginateStep<T>(list: Query -> Result<Page<T>, Error>, resource: Resource, q: Query, fuel: nat,
                        calls: seq<Call>, items: seq<T>)
    requires EndsWithin(list, q, fuel) && list(q).Ok? && list(q).value.nextOffset != 0
    ensures EndsWithin(list, AtOffset(q, list(q).value.nextOffset), fuel - 1)
    ensures var page := list(q).value;
      Then(calls, items, Paginate(list, resource, q, fuel))
        == Then(calls + [List(resource, q)], items + page.items,
                Paginate(list, resource, AtOffset(q, page.nextOffset), fuel - 1))
  {
    var page := list(q).value;
    ThenThen(calls, items, [List(resource, q)], page.items,
      Paginate(list, resource, AtOffset(q, page.nextOffset), fuel - 1));
  }

  /** The last page of the loop: an error, or a page whose next offset is 0. */
  lemma PaginateLast<T>(list: Query -> Result<Page<T>, Error>, resource: Resource, q: Query, fuel: nat,
                        calls: seq<Call>, items: seq<T>)
    requires EndsWithin(list, q, fuel) && Final(list(q))
    ensures Then(calls, items, Paginate(list, resource, q, fuel))
      == Fetched(calls + [List(resource, q)], if list(q).Err? then Err(list(q).error) else Ok(items + list(q).value.items))
  {
  }

  /** The items of the answers to `calls`, concatenated in order. */
  function PageItems<T>(list: Query -> Result<Page<T>, Error>, calls: seq<Call>): seq<T>
    requires forall i :: 0 <= i < |calls| ==> calls[i].List?
  {
    if calls == [] then [] else ItemsOf(list(calls[0].query)) + PageItems(list, calls[1..])
  }

  function ItemsOf<T>(answer: Result<Page<T>, Error>): seq<T>
  {
    if answer.Ok? then answer.value.items else []
  }

  /** The answer to the last request of a fetch ended it: it was an error or a
      page whose next offset is 0. */
  predicate Final<T>(answer: Result<Page<T>, Error>)
  {
    answer.Err? || answer.value.nextOffset == 0
  }

  /** Every request but the last got a page with a non-zero next offset, and the
      request after it asks for exactly that offset. */
  predicate OffsetChain<T>(list: Query -> Result<Page<T>, Error>, calls: seq<Call>)
    requires forall i :: 0 <= i < |calls| ==> calls[i].List?
  {
    forall i :: 0 <= i < |calls| - 1 ==>
      && !Final(list(calls[i].query))
      && calls[i + 1].query == AtOffset(calls[i].query, list(calls[i].query).value.nextOffset)
  }

  /** The requests of a fetch form the offset chain: at most `fuel` list requests,
      each one asking for the offset the page before it named, and the last one
      got an error or a page whose next offset is 0. */
  lemma {:induction false} PaginateFollowsOffsets<T>(list: Query -> Result<Page<T>, Error>, resource: Resource, q: Query, fuel: nat)
    requires EndsWithin(list, q, fuel)
    ensures var calls := Paginate(list, resource, q, fuel).calls;
      && 1 <= |calls| <= fuel
      && (forall i :: 0 <= i < |calls| ==> calls[i].List?)
      && OffsetChain(list, calls)
      && Final(list(calls[|calls| - 1].query))
    decreases fuel
  {
    var calls := Paginate(list, resource, q, fuel).calls;
    if Final(list(q)) {
      assert calls == [List(resource, q)];
      hide Paginate;
      assert OffsetChain(list, calls);
    } else {
      var q' := AtOffset(q, list(q).value.nextOffset);
      PaginateFollowsOffsets(list, resource, q', fuel - 1);
      var rest := Paginate(list, resource, q', fuel - 1).calls;
      assert calls == [List(resource, q)] + rest;
      assert rest[0] == List(resource, q');
      hide Paginate, OffsetChain, Final;
      ChainCons(list, List(resource, q), rest);
    }
  }

  /** A request whose page names the offset of the first request of a chain
      extends that chain at the front. */
  lemma ChainCons<T>(list: Query -> Result<Page<T>, Error>, first: Call, rest: seq<Call>)
    requires first.List? && |rest| >= 1 && forall i :: 0 <= i < |rest| ==> rest[i].List?
    requires OffsetChain(list, rest)
    requires !Final(list(first.query)) && rest[0].query == AtOffset(first.query, list(first.query).value.nextOffset)
    ensures OffsetChain(list, [first] + rest)
    ensures forall i :: 0 <= i < |rest| + 1 ==> ([first] + rest)[i].List?
    ensures ([first] + rest)[|rest|] == rest[|rest| - 1]
  {
    var calls := [first] + rest;
    assert forall i :: 0 < i < |calls| ==> calls[i] == rest[i - 1];
    forall i | 0 <= i < |calls| - 1
      ensures !Final(list(calls[i].query))
      ensures calls[i + 1].query == AtOffset(calls[i].query, list(calls[i].query).value.nextOffset)
    {
      if i > 0 {
        assert calls[i] == rest[i - 1] && calls[i + 1] == rest[i];
      }
    }
  }

  /** The outcome of a fetch: an error exactly when the last request got one, and
      then that error verbatim; otherwise the items of every page in page order. */
  lemma {:induction false} PaginateResult<T>(list: Query -> Result<Page<T>, Error>, resource: Resource, q: Query, fuel: nat)
    requires EndsWithin(list, q, fuel)
    ensures var f := Paginate(list, resource, q, fuel);
      && |f.calls| >= 1
      && (forall i :: 0 <= i < |f.calls| ==> f.calls[i].List?)
      && (var last := list(f.calls[|f.calls| - 1].query);
          && (f.result.Err? <==> last.Err?)
          && (last.Err? ==> f.result.error == last.error)
          && (f.result.Ok? ==> f.result.value == PageItems(list, f.calls)))
    decreases fuel
  {
    match list(q)
    case Err(e) =>
    case Ok(page) =>
      if page.nextOffset != 0 {
        var q' := AtOffset(q, page.nextOffset);
        PaginateResult(list, resource, q', fuel - 1);
        var f := Paginate(list, resource, q, fuel);
        var rest := Paginate(list, resource, q', fuel - 1);
        assert f.calls == [List(resource, q)] + rest.calls;
        assert f.calls[1..] == rest.calls;
        assert f.calls[|f.calls| - 1] == rest.calls[|rest.calls| - 1];
      }
  }

  /** The first call is `q` itself; every call is a list request to `resource`
      that carries every option of `q` except possibly the offset, unchanged. */
  predicate KeepOptions(calls: seq<Call>, resource: Resource, q: Query)
  {
    && |calls| >= 1 && calls[0] == List(resource, q)
    && (forall i :: 0 <= i < |calls| ==>
          calls[i].List? && calls[i].resource == resource && calls[i].query.Keys == q.Keys)
    && (forall i, k :: 0 <= i < |calls| && k in q && k != "offset" ==>
          calls[i].List? && k in calls[i].query && calls[i].query[k] == q[k])
  }

  /** Every request keeps the caller's options, except for the offset it moves,
      and adds no other option: the limit stays 1000, a name filter is never lost
      and no filter appears that the caller did not give. */
  lemma {:induction false} PaginateKeepsOptions<T>(list: Query -> Result<Page<T>, Error>, resource: Resource, q: Query, fuel: nat)
    requires EndsWithin(list, q, fuel) && "offset" in q
    ensures KeepOptions(Paginate(list, resource, q, fuel).calls, resource, q)
    decreases fuel
  {
    match list(q)
    case Err(e) =>
    case Ok(page) =>
      if page.nextOffset != 0 {
        var q' := AtOffset(q, page.nextOffset);
        PaginateKeepsOptions(list, resource, q', fuel - 1);
        var calls := Paginate(list, resource, q, fuel).calls;
        var rest := Paginate(list, resource, q', fuel - 1).calls;
        assert calls == [List(resource, q)] + rest;
        forall i, k | 0 <= i < |calls| && k in q && k != "offset"
          ensures calls[i].List? && k in calls[i].query && calls[i].query[k] == q[k]
        {
          if i > 0 {
            assert calls[i] == rest[i - 1];
            assert k in q' && q'[k] == q[k];
          }
        }
        forall i | 0 <= i < |calls|
          ensures calls[i].List? && calls[i].resource == resource && calls[i].query.Keys == q.Keys
        {
          if i > 0 {
            assert calls[i] == rest[i - 1];
            assert q'.Keys == q.Keys;
          }
        }
      }
  }

  /** A first page whose next offset is 0 ends the fetch after that one request. */
  lemma SinglePage<T>(list: Query -> Result<Page<T>, Error>, resource: Resource, q: Query, fuel: nat)
    requires fuel > 0 && list(q).Ok? && list(q).value.nextOffset == 0
    ensures Paginate(list, resource, q, fuel) == Fetched([List(resource, q)], Ok(list(q).value.items))
  {
  }
}
