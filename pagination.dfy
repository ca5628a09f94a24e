/** Cursor pagination as list-emails and list-segments both implement it:
    `after` and `before` exclude each other, and the options handed to the
    provider carry whichever cursor was given. */
module Pagination {
  import opened Wrappers
  import opened JsArgs

  /** The validated `limit`, `after` and `before` arguments of a list tool. */
  datatype PageRequest = PageRequest(limit: Option<int>, after: Option<string>, before: Option<string>)

  /** The options object: `{limit, after}`, `{limit, before}` or `{limit}`.
      The first two carry `limit` even when it is `undefined`. */
  datatype PaginationOptions =
    | Forward(limit: Option<int>, after: string)
    | Backward(limit: Option<int>, before: string)
    | LimitOnly(count: int)

  const BothCursorsError := "Cannot use both \"after\" and \"before\" parameters. Use only one for pagination."

  /** The guard and the options ternary: an error when both cursors are
      truthy, otherwise the options (or `undefined` when nothing was given). */
  function PaginationFor(req: PageRequest): (r: Result<Option<PaginationOptions>, string>)
    ensures r.Err? <==> Present(req.after) && Present(req.before)
    ensures r.Err? ==> r.error == BothCursorsError
    ensures r.Ok? && Present(req.after) ==> r.value == Some(Forward(req.limit, req.after.value))
    ensures r.Ok? && !Present(req.after) && Present(req.before) ==> r.value == Some(Backward(req.limit, req.before.value))
    ensures r.Ok? && !Present(req.after) && !Present(req.before) && req.limit.Some? ==> r.value == Some(LimitOnly(req.limit.value))
    ensures r.Ok? && !Present(req.after) && !Present(req.before) && req.limit.None? ==> r.value == None
  {
    if Present(req.after) && Present(req.before) then Err(BothCursorsError)
    else if Present(req.after) then Ok(Some(Forward(req.limit, req.after.value)))
    else if Present(req.before) then Ok(Some(Backward(req.limit, req.before.value)))
    else if req.limit.Some? then Ok(Some(LimitOnly(req.limit.value)))
    else Ok(None)
  }

  /** The `after` cursor an options value sends. */
  function SentAfter(o: Option<PaginationOptions>): Option<string> {
    if o.Some? && o.value.Forward? then Some(o.value.after) else None
  }

  /** The `before` cursor an options value sends. */
  function SentBefore(o: Option<PaginationOptions>): Option<string> {
    if o.Some? && o.value.Backward? then Some(o.value.before) else None
  }

  /** The `limit` an options value sends. */
  function SentLimit(o: Option<PaginationOptions>): Option<int> {
    match o
    case None => None
    case Some(Forward(limit, _)) => limit
    case Some(Backward(limit, _)) => limit
    case Some(LimitOnly(count)) => Some(count)
  }

  /** Whenever the request is accepted, the provider receives exactly the
      given truthy cursor, at most one of the two, and the given limit. */
  lemma {:induction false} PaginationForwardsRequest(req: PageRequest)
    requires PaginationFor(req).Ok?
    ensures var o := PaginationFor(req).value;
      && SentAfter(o) == (if Present(req.after) then req.after else None)
      && SentBefore(o) == (if Present(req.before) then req.before else None)
      && SentLimit(o) == req.limit
      && (SentAfter(o).None? || SentBefore(o).None?)
  {
    var o := PaginationFor(req).value;
    if Present(req.after) {
      assert o == Some(Forward(req.limit, req.after.value));
    } else if Present(req.before) {
      assert o == Some(Backward(req.limit, req.before.value));
    }
  }

  /** The data of a list response: `data` and `has_more`, each possibly missing. */
  datatype ListData<T> = ListData(items: Option<seq<T>>, hasMore: Option<bool>)

  /** `response.data?.data ?? []`. */
  function PageItems<T>(d: Option<ListData<T>>): (items: seq<T>)
    ensures d.Some? && d.value.items.Some? ==> items == d.value.items.value
    ensures d.None? || d.value.items.None? ==> items == []
  {
    if d.Some? then d.value.items.GetOr([]) else []
  }

  /** `response.data?.has_more ?? false`. */
  function PageHasMore<T>(d: Option<ListData<T>>): (more: bool)
    ensures more <==> d.Some? && d.value.hasMore == Some(true)
  {
    if d.Some? then d.value.hasMore.GetOr(false) else false
  }
}
