/** The transactions-by-employee slice: one optional paginated response
    that `fetchById` grows page by page and `invalidateData` clears. */
module ByEmployee {
  import opened Types

  /** The parameters of one request to the `transactionsByEmployee` source. */
  datatype Request = Request(employeeId: string, page: int)

  /** The uncached by-employee source, seen as an oracle: what it answers to
      a request for `page` of `employeeId` (`None` = a null response). */
  type PageSource = (string, int) -> Option<Page>

  /** The page token sent with the next request: 0 when the slice is absent
      or at its end, else the stored `nextPage` as it is. */
  function RequestedPage(slice: Option<Page>): (page: int)
    ensures slice.None? || slice.value.nextPage.None? ==> page == 0
    ensures slice.Some? && slice.value.nextPage.Some? ==> page == slice.value.nextPage.value
  {
    if slice.None? || slice.value.nextPage.None? then 0 else slice.value.nextPage.value
  }

  /** The functional state update applied when a response arrives. */
  function Merge(previous: Option<Page>, response: Option<Page>): (r: Option<Page>)
    ensures response.None? ==> r.None?
    ensures previous.None? ==> r == response
    ensures previous.Some? && response.Some? ==>
      && r.Some?
      && r.value.nextPage == response.value.nextPage
      && |r.value.data| == |previous.value.data| + |response.value.data|
      && r.value.data[..|previous.value.data|] == previous.value.data
      && r.value.data[|previous.value.data|..] == response.value.data
  {
    if response.None? || previous.None? then response
    else Some(Page(previous.value.data + response.value.data, response.value.nextPage))
  }

  /** The slice after one `fetchById(employeeId)` answered by `source`. */
  function Fetched(slice: Option<Page>, employeeId: string, source: PageSource): Option<Page>
  {
    Merge(slice, source(employeeId, RequestedPage(slice)))
  }

  /** The slice after `n` calls of `fetchById(employeeId)` in a row. */
  function FetchTimes(slice: Option<Page>, employeeId: string, source: PageSource, n: nat): Option<Page>
    decreases n
  {
    if n == 0 then slice
    else FetchTimes(Fetched(slice, employeeId, source), employeeId, source, n - 1)
  }

  /** The responses those `n` calls receive, in the order they arrive. */
  function Responses(slice: Option<Page>, employeeId: string, source: PageSource, n: nat): (rs: seq<Option<Page>>)
    ensures |rs| == n
    ensures n > 0 ==> rs[0] == source(employeeId, RequestedPage(slice))
    decreases n
  {
    if n == 0 then []
    else
      var next := Fetched(slice, employeeId, source);
      [source(employeeId, RequestedPage(slice))] + Responses(next, employeeId, source, n - 1)
  }

  /** The slice after merging `responses` one after the other. */
  function Replay(slice: Option<Page>, responses: seq<Option<Page>>): Option<Page>
    decreases |responses|
  {
    if responses == [] then slice else Replay(Merge(slice, responses[0]), responses[1..])
  }

  /** The rows of `responses`, concatenated in order (a null response adds none). */
  function ConcatRows(responses: seq<Option<Page>>): seq<Transaction>
    decreases |responses|
  {
    if responses == [] then [] else Rows(responses[0]) + ConcatRows(responses[1..])
  }

  /** No response in `responses` is null. */
  predicate AllPresent(responses: seq<Option<Page>>)
  {
    forall i :: 0 <= i < |responses| ==> responses[i].Some?
  }

  /** A run of fetches is the replay of the responses it receives. */
  lemma {:induction false} FetchTimesIsReplay(slice: Option<Page>, employeeId: string, source: PageSource, n: nat)
    ensures FetchTimes(slice, employeeId, source, n) == Replay(slice, Responses(slice, employeeId, source, n))
    decreases n
  {
    if n > 0 {
      var rs := Responses(slice, employeeId, source, n);
      var next := Fetched(slice, employeeId, source);
      FetchTimesIsReplay(next, employeeId, source, n - 1);
      assert rs[1..] == Responses(next, employeeId, source, n - 1);
    }
  }

  /** Merging non-null responses onto a present slice appends their rows in
      order, keeps every earlier row, and ends with the last response's token. */
  lemma {:induction false} ReplayAppends(start: Page, responses: seq<Option<Page>>)
    requires AllPresent(responses)
    ensures Replay(Some(start), responses).Some?
    ensures Replay(Some(start), responses).value.data == start.data + ConcatRows(responses)
    ensures Replay(Some(start), responses).value.nextPage
         == if responses == [] then start.nextPage else responses[|responses| - 1].value.nextPage
    decreases |responses|
  {
    if responses != [] {
      var first := responses[0].value;
      var next := Page(start.data + first.data, first.nextPage);
      assert Merge(Some(start), responses[0]) == Some(next);
      ReplayAppends(next, responses[1..]);
      assert start.data + first.data + ConcatRows(responses[1..])
          == start.data + (first.data + ConcatRows(responses[1..]));
      if responses[1..] != [] {
        assert responses[1..][|responses[1..]| - 1] == responses[|responses| - 1];
      }
    }
  }

  /** After an invalidation, `n` fetches that all get a page leave exactly
      the rows of those pages, in fetch order, and the last page's token. */
  lemma {:induction false} FetchesAfterInvalidateConcatenate(employeeId: string, source: PageSource, n: nat)
    requires n > 0
    requires AllPresent(Responses(None, employeeId, source, n))
    ensures FetchTimes(None, employeeId, source, n)
         == Some(Page(ConcatRows(Responses(None, employeeId, source, n)),
                      Responses(None, employeeId, source, n)[n - 1].value.nextPage))
  {
    var rs := Responses(None, employeeId, source, n);
    FetchTimesIsReplay(None, employeeId, source, n);
    var first := rs[0].value;
    assert Replay(None, rs) == Replay(Some(first), rs[1..]);
    assert AllPresent(rs[1..]) by {
      forall i | 0 <= i < |rs[1..]| ensures rs[1..][i].Some? {
        assert rs[1..][i] == rs[i + 1];
      }
    }
    ReplayAppends(first, rs[1..]);
    assert ConcatRows(rs) == first.data + ConcatRows(rs[1..]);
    if n > 1 {
      assert rs[1..][|rs[1..]| - 1] == rs[n - 1];
    }
  }

  /** The token asked for after a response is that response's `nextPage`,
      or 0 when the response ends the data. */
  lemma RequestedPageAfterResponse(previous: Option<Page>, response: Page)
    ensures RequestedPage(Merge(previous, Some(response)))
         == if response.nextPage.None? then 0 else response.nextPage.value
    ensures RequestedPage(None) == 0
  {
  }

  /** Nothing stored before an invalidation reaches the next fetch: it asks
      for page 0 and the slice becomes the response exactly. */
  lemma FetchAfterInvalidate(employeeId: string, source: PageSource)
    ensures Fetched(None, employeeId, source) == source(employeeId, 0)
  {
  }

  /** A null response empties the slice, whatever it held before. */
  lemma NullResponseDropsRows(slice: Option<Page>, employeeId: string, source: PageSource)
    requires source(employeeId, RequestedPage(slice)).None?
    ensures Fetched(slice, employeeId, source).None?
  {
  }

  /** Merging neither drops, duplicates nor invents a row. */
  lemma MergeKeepsEveryRow(previous: Page, response: Page)
    ensures multiset(Rows(Merge(Some(previous), Some(response))))
         == multiset(previous.data) + multiset(response.data)
  {
  }

  /** There is no end-of-data guard: once `nextPage` is null, a fetch asks
      for page 0 again and appends that page after the rows already held. */
  lemma NoEndOfDataGuard(rows: seq<Transaction>, employeeId: string, source: PageSource)
    requires source(employeeId, 0).Some?
    ensures RequestedPage(Some(Page(rows, None))) == 0
    ensures Fetched(Some(Page(rows, None)), employeeId, source)
         == Some(Page(rows + source(employeeId, 0).value.data, source(employeeId, 0).value.nextPage))
  {
  }

  /** Hence, when the first page is also the last, a second fetch shows it twice. */
  lemma SecondFetchRepeatsSinglePage(employeeId: string, source: PageSource)
    requires source(employeeId, 0).Some? && source(employeeId, 0).value.nextPage.None?
    ensures FetchTimes(None, employeeId, source, 2)
         == Some(Page(source(employeeId, 0).value.data + source(employeeId, 0).value.data, None))
  {
  }

  /** The slice cell owned by the hook. */
  class TransactionsByEmployee {
    var data: Option<Page>

    /** The cell starts out absent. */
    constructor ()
      ensures data == None
    {
      data := None;
    }

    /** Requests the next page of `employeeId` and merges the response into
        the cell; returns the parameters the request carried. */
    method FetchById(employeeId: string, source: PageSource) returns (request: Request)
      modifies this
      ensures request == Request(employeeId, RequestedPage(old(data)))
      ensures data == Merge(old(data), source(request.employeeId, request.page))
    {
      request := Request(employeeId, RequestedPage(data));
      var response := source(request.employeeId, request.page);
      data := Merge(data, response);
    }

    /** Resets the cell to absent. */
    method InvalidateData()
      modifies this
      ensures data == None
    {
      data := None;
    }
  }
}
