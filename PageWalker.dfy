/** `fetchAllZohoPages` of src/services/zohoHelpers.js (a second, identical
    copy lives in src/controllers/zohoController.js): request pages 1, 2, 3,
    ... of a list endpoint, 200 items per page, concatenating the items under
    `itemKey`, until a response no longer says `has_more_page`.

    `Walk` is the specification: what the walk yields when the successive
    `zohoGet` calls settle with the given outcomes. `FetchAllPages` is the
    loop, proved to make exactly the calls `Walk` consumes, with the page
    parameters in order, and to return what `Walk` says. */
module PageWalker {
  import opened Values
  import opened ZohoApi

  /** The API's largest page size. */
  const PerPage := 200

  /** `{ ...baseParams, page, per_page }`: the two paging keys override
      same-named keys of the base parameters. */
  function PageParams(base: Record, page: nat): Record
  {
    base["page" := Num(page)]["per_page" := Num(PerPage)]
  }

  /** Page parameters carry the page number, the page size 200, and every
      other base parameter unchanged, and nothing else. */
  lemma PageParamsKeepBase(base: Record, page: nat)
    ensures var p := PageParams(base, page);
      && "page" in p && p["page"] == Num(page)
      && "per_page" in p && p["per_page"] == Num(PerPage)
      && p.Keys == base.Keys + {"page", "per_page"}
      && forall k :: k in base && k != "page" && k != "per_page" ==> p[k] == base[k]
  {
  }

  /** `data?.[itemKey] || []`, as `Array.prototype.concat` appends it: an
      array contributes its elements, any other truthy value itself. */
  function PageItems(data: Value, itemKey: string): seq<Value>
  {
    if data.Obj? && itemKey in data.fields && Truthy(data.fields[itemKey]) then
      match data.fields[itemKey]
      case Arr(xs) => xs
      case v => [v]
    else []
  }

  /** `data?.page_context || null`. */
  function PageContext(data: Value): Value
  {
    if data.Obj? && "page_context" in data.fields && Truthy(data.fields["page_context"]) then
      data.fields["page_context"]
    else Null
  }

  /** `lastContext?.has_more_page` is truthy. */
  predicate HasMore(data: Value)
  {
    var ctx := PageContext(data);
    ctx.Obj? && "has_more_page" in ctx.fields && Truthy(ctx.fields["has_more_page"])
  }

  /** What the walker returns: all items, and the last page's context. */
  datatype Walked = Walked(items: seq<Value>, pageContext: Value)

  type Outcome = Result<Value, ApiError>

  /** An outcome after which the walker asks for the next page. */
  predicate Continues(o: Outcome)
  {
    o.Ok? && HasMore(o.value)
  }

  function Items(o: Outcome, itemKey: string): seq<Value>
  {
    if o.Ok? then PageItems(o.value, itemKey) else []
  }

  /** The items of successive outcomes, concatenated in order. */
  function Flatten(os: seq<Outcome>, itemKey: string): seq<Value>
  {
    if os == [] then [] else Items(os[0], itemKey) + Flatten(os[1..], itemKey)
  }

  /** The sum of the per-page item counts. */
  function CountItems(os: seq<Outcome>, itemKey: string): nat
  {
    if os == [] then 0 else |Items(os[0], itemKey)| + CountItems(os[1..], itemKey)
  }

  /** The walk over the outcomes of its successive calls: the result and how
      many calls it made, or `None` if the outcomes run out first. */
  function Walk(os: seq<Outcome>, itemKey: string): Option<(Result<Walked, ApiError>, nat)>
  {
    if os == [] then None
    else if os[0].Err? then Some((Err(os[0].error), 1))
    else if !HasMore(os[0].value) then
      Some((Ok(Walked(PageItems(os[0].value, itemKey), PageContext(os[0].value))), 1))
    else
      Shift(PageItems(os[0].value, itemKey), 1, Walk(os[1..], itemKey))
  }

  /** A walk that first went through `n` more calls yielding `prefix`. */
  function Shift(prefix: seq<Value>, n: nat, w: Option<(Result<Walked, ApiError>, nat)>): Option<(Result<Walked, ApiError>, nat)>
  {
    match w
    case None => None
    case Some((Err(e), m)) => Some((Err(e), m + n))
    case Some((Ok(x), m)) => Some((Ok(Walked(prefix + x.items, x.pageContext)), m + n))
  }

  lemma {:induction false} FlattenAppend(a: seq<Outcome>, b: seq<Outcome>, itemKey: string)
    ensures Flatten(a + b, itemKey) == Flatten(a, itemKey) + Flatten(b, itemKey)
  {
    if a == [] {
      assert a + b == b;
    } else {
      assert (a + b)[0] == a[0];
      assert (a + b)[1..] == a[1..] + b;
      FlattenAppend(a[1..], b, itemKey);
    }
  }

  /** Pages that all say "more" contribute their items, in order, ahead of
      whatever the rest of the walk yields. */
  lemma {:induction false} WalkAppend(done: seq<Outcome>, rest: seq<Outcome>, itemKey: string)
    requires forall i :: 0 <= i < |done| ==> Continues(done[i])
    ensures Walk(done + rest, itemKey) == Shift(Flatten(done, itemKey), |done|, Walk(rest, itemKey))
  {
    if done == [] {
      assert done + rest == rest;
      match Walk(rest, itemKey)
      case None =>
      case Some((res, m)) =>
        if res.Ok? {
          assert [] + res.value.items == res.value.items;
        }
    } else {
      assert (done + rest)[0] == done[0];
      assert (done + rest)[1..] == done[1..] + rest;
      WalkAppend(done[1..], rest, itemKey);
      match Walk(rest, itemKey)
      case None =>
      case Some((res, m)) =>
        if res.Ok? {
          var head := PageItems(done[0].value, itemKey);
          assert head + (Flatten(done[1..], itemKey) + res.value.items)
              == (head + Flatten(done[1..], itemKey)) + res.value.items;
        }
    }
  }

  /** With `has_more_page` true on pages 1..k and false on page k+1, the walk
      makes exactly k+1 calls and returns the items of all k+1 pages in
      encounter order, with page k+1's context. */
  lemma WalkStopsAtFirstFalsyMore(os: seq<Outcome>, k: nat, itemKey: string)
    requires k < |os|
    requires forall i :: 0 <= i < k ==> Continues(os[i])
    requires os[k].Ok? && !HasMore(os[k].value)
    ensures Walk(os, itemKey) == Some((Ok(Walked(Flatten(os[..k + 1], itemKey), PageContext(os[k].value))), k + 1))
  {
    assert os == os[..k] + os[k..];
    WalkAppend(os[..k], os[k..], itemKey);
    assert os[k..][0] == os[k];
    FlattenAppend(os[..k], [os[k]], itemKey);
    assert os[..k + 1] == os[..k] + [os[k]];
    assert Flatten([os[k]], itemKey) == PageItems(os[k].value, itemKey) + Flatten([], itemKey);
    assert PageItems(os[k].value, itemKey) + [] == PageItems(os[k].value, itemKey);
  }

  /** A failed call ends the walk with that error; no items are returned. */
  lemma WalkAbortsOnError(os: seq<Outcome>, j: nat, itemKey: string)
    requires j < |os|
    requires forall i :: 0 <= i < j ==> Continues(os[i])
    requires os[j].Err?
    ensures Walk(os, itemKey) == Some((Err(os[j].error), j + 1))
  {
    assert os == os[..j] + os[j..];
    assert os[j..][0] == os[j];
    WalkAppend(os[..j], os[j..], itemKey);
  }

  /** The number of returned items is the sum of the per-page counts. */
  lemma {:induction false} ItemCountIsSum(os: seq<Outcome>, itemKey: string)
    ensures |Flatten(os, itemKey)| == CountItems(os, itemKey)
  {
    if os != [] {
      ItemCountIsSum(os[1..], itemKey);
    }
  }

  function Outcomes(calls: seq<Call>): (os: seq<Outcome>)
    ensures |os| == |calls| && forall i :: 0 <= i < |calls| ==> os[i] == calls[i].outcome
  {
    if calls == [] then [] else [calls[0].outcome] + Outcomes(calls[1..])
  }

  lemma OutcomesSnoc(made: seq<Call>, c: Call)
    ensures Outcomes(made + [c]) == Outcomes(made) + [c.outcome]
  {
    assert Outcomes(made + [c]) == Outcomes(made) + [c.outcome];
  }

  /** One more call after calls that all said "more": an error ends the
      walk with it, a page without "more" ends it with everything so far. */
  lemma WalkStep(done: seq<Outcome>, o: Outcome, itemKey: string)
    requires forall i :: 0 <= i < |done| ==> Continues(done[i])
    ensures o.Err? ==> Walk(done + [o], itemKey) == Some((Err(o.error), |done| + 1))
    ensures o.Ok? && !HasMore(o.value) ==>
      Walk(done + [o], itemKey)
        == Some((Ok(Walked(Flatten(done, itemKey) + PageItems(o.value, itemKey), PageContext(o.value))), |done| + 1))
    ensures Flatten(done + [o], itemKey) == Flatten(done, itemKey) + Items(o, itemKey)
  {
    WalkAppend(done, [o], itemKey);
    FlattenAppend(done, [o], itemKey);
    assert Flatten([o], itemKey) == Items(o, itemKey) + Flatten([], itemKey);
    assert Items(o, itemKey) + [] == Items(o, itemKey);
  }

  /** The i-th of `made` asked `path` for page i+1. */
  ghost predicate PagedCalls(made: seq<Call>, path: string, base: Record)
  {
    forall i :: 0 <= i < |made| ==> made[i].path == path && made[i].params == PageParams(base, i + 1)
  }

  lemma PagedCallsSnoc(made: seq<Call>, path: string, base: Record, c: Call)
    requires PagedCalls(made, path, base)
    requires c.path == path && c.params == PageParams(base, |made| + 1)
    ensures PagedCalls(made + [c], path, base)
  {
  }

  /** The loop of `fetchAllZohoPages`. The calls it makes are exactly those
      `Walk` consumes, the i-th asking for page i+1 with `per_page` 200, and
      its result is the one `Walk` gives for their outcomes. */
  method FetchAllPages(client: ApiClient, path: string, baseParams: Record, itemKey: string, now: int)
    returns (r: Result<Walked, ApiError>)
    requires client.Valid()
    modifies client, client.tokens, client.tokens.endpoint, client.server
    ensures client.Valid()
    ensures old(client.calls) <= client.calls && |client.calls| > |old(client.calls)|
    ensures PagedCalls(client.calls[|old(client.calls)|..], path, baseParams)
    ensures Walk(Outcomes(client.calls[|old(client.calls)|..]), itemKey) == Some((r, |client.calls| - |old(client.calls)|))
  {
    ghost var made: seq<Call> := [];
    var page := 1;
    var all := [];
    while true
      invariant client.Valid()
      invariant client.calls == old(client.calls) + made && |made| == page - 1
      invariant PagedCalls(made, path, baseParams)
      invariant forall i :: 0 <= i < |made| ==> Continues(made[i].outcome)
      invariant all == Flatten(Outcomes(made), itemKey)
      decreases if |client.server.sent| <= |client.server.replies| then |client.server.replies| - |client.server.sent| + 1 else 0
    {
      var data := client.Get(path, PageParams(baseParams, page), now);
      ghost var c := Call(path, PageParams(baseParams, page), data);
      OutcomesSnoc(made, c);
      PagedCallsSnoc(made, path, baseParams, c);
      WalkStep(Outcomes(made), data, itemKey);
      made := made + [c];
      assert client.calls[|old(client.calls)|..] == made;
      if data.Err? {
        return Err(data.error);
      }
      all := all + PageItems(data.value, itemKey);
      if !HasMore(data.value) {
        return Ok(Walked(all, PageContext(data.value)));
      }
      page := page + 1;
    }
  }
}
