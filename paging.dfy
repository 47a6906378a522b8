/**
 * `GetAllByQuery`: fetch every page of a query by following the store's paging cookie.
 * The store is abstract: its answers to the successive `RetrieveMultiple` calls are
 * given as a sequence of pages, the i-th page answering the i-th call.
 */
module Paging {
  import opened Wrappers

  /** The paging part of a query: page size, page number and cookie. */
  datatype PagingInfo = PagingInfo(count: int, pageNumber: int, cookie: string)

  /** One answer of the store: the page's entities, whether more follow, and the next cookie. */
  datatype Page<E> = Page(entities: seq<E>, moreRecords: bool, cookie: string)

  /** Paging installed on a query that has none: 5000 records per page, page 1, empty cookie. */
  const DefaultPaging := PagingInfo(5000, 1, "")

  /** A query whose paging information the fetch fills in and advances. */
  class Query {
    var pageInfo: Option<PagingInfo>

    constructor (pageInfo: Option<PagingInfo>)
      ensures this.pageInfo == pageInfo
    {
      this.pageInfo := pageInfo;
    }
  }

  /** The paging a fetch starts from: the query's own, or the defaults when it has none. */
  function StartPaging(pageInfo: Option<PagingInfo>): (p: PagingInfo)
    ensures pageInfo.None? ==> p == DefaultPaging
    ensures pageInfo.Some? ==> p == pageInfo.value
  {
    match pageInfo
    case None => DefaultPaging
    case Some(p) => p
  }

  /** Whether the store eventually answers with a last page. */
  predicate HasLastPage<E>(pages: seq<Page<E>>)
  {
    exists k :: 0 <= k < |pages| && !pages[k].moreRecords
  }

  /** Some page says no more records follow, and every page before it says more do. */
  lemma {:induction false} FirstLastPage<E>(pages: seq<Page<E>>, k: nat)
    requires k < |pages| && !pages[k].moreRecords
    ensures exists m :: 0 <= m < |pages| && !pages[m].moreRecords && forall j :: 0 <= j < m ==> pages[j].moreRecords
    decreases k
  {
    if j :| 0 <= j < k && !pages[j].moreRecords {
      FirstLastPage(pages, j);
    }
  }

  /** Position of the first page that says no more records follow. */
  ghost function LastPage<E>(pages: seq<Page<E>>): (k: nat)
    requires HasLastPage(pages)
    ensures k < |pages| && !pages[k].moreRecords
    ensures forall j :: 0 <= j < k ==> pages[j].moreRecords
  {
    var k0 :| 0 <= k0 < |pages| && !pages[k0].moreRecords;
    FirstLastPage(pages, k0);
    var k :| 0 <= k < |pages| && !pages[k].moreRecords && forall j :: 0 <= j < k ==> pages[j].moreRecords;
    k
  }

  /** Paging sent with the i-th call: page number advanced i times, cookie of the page before. */
  function PagingAt<E>(start: PagingInfo, pages: seq<Page<E>>, i: nat): PagingInfo
    requires i <= |pages|
  {
    PagingInfo(start.count, start.pageNumber + i, if i == 0 then start.cookie else pages[i - 1].cookie)
  }

  /** The entities of the first k pages, in page order. */
  function Flatten<E>(pages: seq<Page<E>>, k: nat): seq<E>
    requires k <= |pages|
  {
    if k == 0 then [] else Flatten(pages, k - 1) + pages[k - 1].entities
  }

  /** Every fetched entity comes from one of the first k pages, and their entities are all fetched. */
  lemma {:induction false} FlattenMembers<E>(pages: seq<Page<E>>, k: nat, x: E)
    requires k <= |pages|
    ensures x in Flatten(pages, k) <==> exists i :: 0 <= i < k && x in pages[i].entities
  {
    if k > 0 {
      FlattenMembers(pages, k - 1, x);
    }
  }

  /** The number of entities on the first k pages. */
  function TotalSize<E>(pages: seq<Page<E>>, k: nat): nat
    requires k <= |pages|
  {
    if k == 0 then 0 else TotalSize(pages, k - 1) + |pages[k - 1].entities|
  }

  /** The fetch returns as many entities as the pages hold together. */
  lemma {:induction false} FlattenLength<E>(pages: seq<Page<E>>, k: nat)
    requires k <= |pages|
    ensures |Flatten(pages, k)| == TotalSize(pages, k)
  {
    if k > 0 {
      FlattenLength(pages, k - 1);
    }
  }

  /** The paging sent with each of the first k calls, in call order. */
  function Sent<E>(start: PagingInfo, pages: seq<Page<E>>, k: nat): (r: seq<PagingInfo>)
    requires k <= |pages|
    ensures |r| == k
  {
    if k == 0 then [] else Sent(start, pages, k - 1) + [PagingAt(start, pages, k - 1)]
  }

  /** The i-th call sent the paging of call i. */
  lemma {:induction false} SentAt<E>(start: PagingInfo, pages: seq<Page<E>>, k: nat, i: nat)
    requires i < k <= |pages|
    ensures Sent(start, pages, k)[i] == PagingAt(start, pages, i)
  {
    if i < k - 1 {
      SentAt(start, pages, k - 1, i);
    }
  }

  /**
   * Retrieves pages until the store says no more records follow. Returns the entities of
   * all pages up to and including that one, in order, and the paging sent with each call.
   * The query keeps the paging of the last call.
   */
  method GetAllByQuery<E>(query: Query, responses: seq<Page<E>>) returns (result: seq<E>, sent: seq<PagingInfo>)
    requires HasLastPage(responses)
    modifies query
    ensures var start := StartPaging(old(query.pageInfo));
            var n := LastPage(responses);
            && |sent| == n + 1
            && sent == Sent(start, responses, n + 1)
            && result == Flatten(responses, n + 1)
            && query.pageInfo == Some(PagingAt(start, responses, n))
  {
    ghost var n := LastPage(responses);
    if query.pageInfo.None? {
      query.pageInfo := Some(PagingInfo(5000, 1, ""));
    }
    ghost var start := query.pageInfo.value;
    result, sent := [], [];
    var k := 0;
    var more := true;
    while more
      invariant 0 <= k <= n + 1
      invariant more <==> k <= n
      invariant |sent| == k
      invariant sent == Sent(start, responses, k)
      invariant result == Flatten(responses, k)
      invariant query.pageInfo == Some(PagingAt(start, responses, if more then k else n))
      decreases n + 1 - k
    {
      sent := sent + [query.pageInfo.value];
      var page := responses[k];
      assert page.moreRecords <==> k < n;
      if |page.entities| > 0 {
        result := result + page.entities;
      }
      if page.moreRecords {
        var info := query.pageInfo.value;
        query.pageInfo := Some(info.(pageNumber := info.pageNumber + 1, cookie := page.cookie));
        assert query.pageInfo == Some(PagingAt(start, responses, k + 1));
      }
      more := page.moreRecords;
      k := k + 1;
    }
  }
}
