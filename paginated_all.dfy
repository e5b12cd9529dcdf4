/** The paginated all-transactions slice. Its hook body lives in
    src/hooks/usePaginatedTransactions.ts, outside this model; only its
    interface (`data`, `fetch(replace?)`, `invalidateData`) in
    src/hooks/types.ts is. The behaviour of `fetch` follows the design
    document's description of the slice: ask for page
    0 when absent, otherwise for the stored token; do nothing once the token
    is null; replace the slice when `replace` holds or it is absent, else
    append the new rows and take the new token. */
module PaginatedAll {
  import opened Types

  /** The cached all-transactions source, seen as an oracle: the page it
      answers for a token. */
  type AllPageSource = int -> Page

  /** The token `fetch` asks for, or `None` when it issues no request. */
  function RequestedToken(slice: Option<Page>): Option<int>
  {
    match slice
    case None => Some(0)
    case Some(p) => p.nextPage
  }

  /** The slice after one `fetch(replace)` answered by `source`. */
  function Fetched(slice: Option<Page>, replace: bool, source: AllPageSource): (r: Option<Page>)
    ensures r.Some?
    ensures RequestedToken(slice).None? ==> r == slice
    ensures RequestedToken(slice).Some? && (replace || slice.None?) ==>
      r == Some(source(RequestedToken(slice).value))
    ensures RequestedToken(slice).Some? && !replace && slice.Some? ==>
      var response := source(RequestedToken(slice).value);
      && |r.value.data| == |slice.value.data| + |response.data|
      && r.value.data[..|slice.value.data|] == slice.value.data
      && r.value.data[|slice.value.data|..] == response.data
      && r.value.nextPage == response.nextPage
  {
    match RequestedToken(slice)
    case None => slice
    case Some(token) =>
      var response := source(token);
      if replace || slice.None? then Some(response)
      else Some(Page(slice.value.data + response.data, response.nextPage))
  }

  /** On an absent slice the `replace` flag makes no difference: the slice
      becomes page 0 exactly. */
  lemma FetchOnAbsentIgnoresReplace(replace: bool, source: AllPageSource)
    ensures Fetched(None, replace, source) == Fetched(None, true, source) == Some(source(0))
  {
  }

  /** Once the token is null, fetching again changes nothing. */
  lemma {:induction false} FetchAtEndIsIdle(slice: Option<Page>, replace: bool, source: AllPageSource, n: nat)
    requires slice.Some? && slice.value.nextPage.None?
    ensures FetchTimes(slice, replace, source, n) == slice
    decreases n
  {
    if n > 0 {
      FetchAtEndIsIdle(Fetched(slice, replace, source), replace, source, n - 1);
    }
  }

  /** The slice after `n` calls of `fetch(replace)` in a row. */
  function FetchTimes(slice: Option<Page>, replace: bool, source: AllPageSource, n: nat): Option<Page>
    decreases n
  {
    if n == 0 then slice else FetchTimes(Fetched(slice, replace, source), replace, source, n - 1)
  }

  /** The slice cell owned by the hook. */
  class PaginatedTransactions {
    var data: Option<Page>

    /** The cell starts out absent. */
    constructor ()
      ensures data == None
    {
      data := None;
    }

    /** Fetches the next page and stores it; returns the token requested,
        or `None` when no request was issued. */
    method Fetch(replace: bool, source: AllPageSource) returns (token: Option<int>)
      modifies this
      ensures token == RequestedToken(old(data))
      ensures data == Fetched(old(data), replace, source)
    {
      token := RequestedToken(data);
      if token.Some? {
        var response := source(token.value);
        if replace || data.None? {
          data := Some(response);
        } else {
          data := Some(Page(data.value.data + response.data, response.nextPage));
        }
      }
    }

    /** Resets the cell to absent. */
    method InvalidateData()
      modifies this
      ensures data == None
    {
      data := None;
    }
  }
}
