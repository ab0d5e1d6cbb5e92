/** The home page: the paginated image query, the flattening of its pages
    into one card list, and the choice among loading, error and content. */
module Home {
  import opened Wrappers
  import opened CardList

  // ---------------------------------------------------------------------
  // Cursors
  // ---------------------------------------------------------------------

  /** A JavaScript value used as a page cursor: `undefined`, `null` or a string. */
  datatype JsCursor = Undefined | Null | Str(s: string)

  /** JavaScript truthiness of a cursor: only a non-empty string is truthy. */
  predicate Truthy(c: JsCursor) {
    c.Str? && c.s != ""
  }

  /** One response of `GET /api/images`. */
  datatype Page = Page(data: seq<Card>, after: JsCursor)

  /** The `after` parameter a request sends: the query function's default
      parameter turns a missing page parameter into `null`. */
  function RequestAfter(pageParam: JsCursor): (r: JsCursor)
    ensures r != Undefined
    ensures pageParam == Undefined ==> r == Null
    ensures pageParam != Undefined ==> r == pageParam
  {
    match pageParam
    case Undefined => Null
    case _ => pageParam
  }

  /** `getNextPageParam`: `lastPage.after || null`. */
  function NextPageParam(lastPage: Page): (r: JsCursor)
    ensures r != Undefined
    ensures r != Null <==> Truthy(lastPage.after)
    ensures r != Null ==> r == lastPage.after
  {
    if Truthy(lastPage.after) then lastPage.after else Null
  }

  lemma FalsyCursorsEndTheList(data: seq<Card>)
    ensures NextPageParam(Page(data, Undefined)) == Null
    ensures NextPageParam(Page(data, Null)) == Null
    ensures NextPageParam(Page(data, Str(""))) == Null
    ensures NextPageParam(Page(data, Str("c1"))) == Str("c1")
  {
  }

  // ---------------------------------------------------------------------
  // The accumulated pages
  // ---------------------------------------------------------------------

  /** The query's data: the pages fetched so far and the page parameter each
      was fetched with, in fetch order. */
  datatype InfiniteData = InfiniteData(pages: seq<Page>, pageParams: seq<JsCursor>)

  /** The first page was fetched without a parameter, and every later one
      with the next-page parameter of the page before it. */
  predicate Chained(d: InfiniteData) {
    && |d.pages| == |d.pageParams| && |d.pages| > 0
    && d.pageParams[0] == Undefined
    && forall i :: 0 < i < |d.pages| ==> d.pageParams[i] == NextPageParam(d.pages[i - 1])
  }

  /** `hasNextPage`: the next-page parameter of the last page is not null. */
  predicate HasNextPage(d: InfiniteData)
    requires |d.pages| > 0
  {
    NextPageParam(d.pages[|d.pages| - 1]) != Null
  }

  /** `formattedData`: every page's `data`, concatenated in fetch order. */
  function FormattedData(pages: seq<Page>): (r: seq<Card>)
  {
    if pages == [] then [] else pages[0].data + FormattedData(pages[1..])
  }

  /** Every record of every page is in the flattened list, and every record
      in it comes from some page. */
  lemma {:induction false} FormattedDataMembers(pages: seq<Page>)
    ensures forall i, k :: 0 <= i < |pages| && 0 <= k < |pages[i].data| ==> pages[i].data[k] in FormattedData(pages)
    ensures forall c :: c in FormattedData(pages) ==> exists i :: 0 <= i < |pages| && c in pages[i].data
  {
    if pages != [] {
      var tail := pages[1..];
      FormattedDataMembers(tail);
      forall i, k | 0 <= i < |pages| && 0 <= k < |pages[i].data|
        ensures pages[i].data[k] in FormattedData(pages)
      {
        if i > 0 {
          assert pages[i] == tail[i - 1];
        }
      }
      forall c | c in FormattedData(pages)
        ensures exists i :: 0 <= i < |pages| && c in pages[i].data
      {
        if c !in pages[0].data {
          assert FormattedData(pages) == pages[0].data + FormattedData(tail);
          assert c in FormattedData(tail);
          var j :| 0 <= j < |tail| && c in tail[j].data;
          assert pages[j + 1] == tail[j];
        }
      }
    }
  }

  /** Adding a page at the end adds its records at the end. */
  lemma {:induction false} FormattedDataAppend(pages: seq<Page>, p: Page)
    ensures FormattedData(pages + [p]) == FormattedData(pages) + p.data
  {
    if pages == [] {
      assert [p][1..] == [];
    } else {
      assert (pages + [p])[1..] == pages[1..] + [p];
      FormattedDataAppend(pages[1..], p);
    }
  }

  /** Flattening distributes over a split of the page list. */
  lemma {:induction false} FormattedDataSplit(pages: seq<Page>, n: nat)
    requires n <= |pages|
    ensures FormattedData(pages) == FormattedData(pages[..n]) + FormattedData(pages[n..])
  {
    if n > 0 {
      assert pages[..n][1..] == pages[1..][..n - 1];
      assert pages[n..] == pages[1..][n - 1..];
      FormattedDataSplit(pages[1..], n - 1);
    }
  }

  /** Nothing is dropped or reordered: record `k` of page `i` sits right after
      all records of the pages before it. */
  lemma FormattedDataAt(pages: seq<Page>, i: nat, k: nat)
    requires i < |pages| && k < |pages[i].data|
    ensures |FormattedData(pages[..i])| + k < |FormattedData(pages)|
    ensures FormattedData(pages)[|FormattedData(pages[..i])| + k] == pages[i].data[k]
  {
    FormattedDataSplit(pages, i);
    var before, rest := FormattedData(pages[..i]), pages[i..];
    var after := FormattedData(rest[1..]);
    assert rest != [] && rest[0] == pages[i];
    assert FormattedData(rest) == pages[i].data + after;
    assert FormattedData(pages) == before + (pages[i].data + after);
    assert (before + (pages[i].data + after))[|before| + k] == pages[i].data[k];
  }

  /** The ids of a list of records. */
  function IdsOf(cards: seq<Card>): (ids: set<string>)
    ensures forall k :: 0 <= k < |cards| ==> cards[k].id in ids
  {
    set c | c in cards :: c.id
  }

  /** No two records of the list share an id. */
  predicate DistinctIds(cards: seq<Card>) {
    forall a, b :: 0 <= a < b < |cards| ==> cards[a].id != cards[b].id
  }

  /** Two id-distinct lists with no id in common join into an id-distinct list. */
  lemma DistinctIdsConcat(a: seq<Card>, b: seq<Card>)
    requires DistinctIds(a) && DistinctIds(b)
    requires forall x, y :: 0 <= x < |a| && 0 <= y < |b| ==> a[x].id != b[y].id
    ensures DistinctIds(a + b)
  {
    forall x, y | 0 <= x < y < |a + b| ensures (a + b)[x].id != (a + b)[y].id {
      if x < |a| <= y {
        assert (a + b)[y] == b[y - |a|];
      }
    }
  }

  /** Ids unique within every page and across pages stay unique in the
      flattened list, so the grid's keys are distinct. */
  lemma {:induction false} FormattedDataIdsDistinct(pages: seq<Page>)
    requires forall i :: 0 <= i < |pages| ==> DistinctIds(pages[i].data)
    requires forall i, j :: 0 <= i < j < |pages| ==> IdsOf(pages[i].data) !! IdsOf(pages[j].data)
    ensures DistinctIds(FormattedData(pages))
  {
    if pages != [] {
      var first: seq<Card>, rest: seq<Card> := pages[0].data, FormattedData(pages[1..]);
      FormattedDataIdsDistinct(pages[1..]);
      FormattedDataMembers(pages[1..]);
      forall x, y | 0 <= x < |first| && 0 <= y < |rest| ensures first[x].id != rest[y].id {
        assert rest[y] in rest;
        var j :| 0 <= j < |pages[1..]| && rest[y] in pages[1..][j].data;
        var k :| 0 <= k < |pages[j + 1].data| && pages[j + 1].data[k] == rest[y];
        assert first[x].id in IdsOf(pages[0].data);
        assert rest[y].id in IdsOf(pages[j + 1].data);
      }
      DistinctIdsConcat(first, rest);
    }
  }

  /** With ids unique across all fetched pages, the grid the content view
      shows has distinct keys. */
  lemma RenderedKeysDistinct(d: InfiniteData)
    requires forall i :: 0 <= i < |d.pages| ==> DistinctIds(d.pages[i].data)
    requires forall i, j :: 0 <= i < j < |d.pages| ==> IdsOf(d.pages[i].data) !! IdsOf(d.pages[j].data)
    ensures var cards := RenderCards(FormattedData(d.pages));
      forall a, b :: 0 <= a < b < |cards| ==> cards[a].key != cards[b].key
  {
    FormattedDataIdsDistinct(d.pages);
    KeysDistinct(FormattedData(d.pages));
  }

  /** The data after the first page has arrived. */
  function FirstFetch(p: Page): (d: InfiniteData)
    ensures Chained(d) && d.pages == [p]
    ensures RequestAfter(d.pageParams[0]) == Null
    ensures FormattedData(d.pages) == p.data
  {
    assert [p][1..] == [];
    InfiniteData([p], [Undefined])
  }

  /** The data after one more page has arrived, fetched with the next-page
      parameter of the last page. */
  function FetchNext(d: InfiniteData, p: Page): (r: InfiniteData)
    requires Chained(d)
    ensures Chained(r) && r.pages == d.pages + [p]
    ensures RequestAfter(r.pageParams[|d.pages|]) == NextPageParam(d.pages[|d.pages| - 1])
    ensures FormattedData(r.pages) == FormattedData(d.pages) + p.data
  {
    FormattedDataAppend(d.pages, p);
    InfiniteData(d.pages + [p], d.pageParams + [NextPageParam(d.pages[|d.pages| - 1])])
  }

  /** Every request after the first sends the `after` of the page before it
      when that is truthy, and `null` otherwise. */
  lemma RequestedCursors(d: InfiniteData, i: nat)
    requires Chained(d) && 0 < i < |d.pages|
    ensures RequestAfter(d.pageParams[i]) == (if Truthy(d.pages[i - 1].after) then d.pages[i - 1].after else Null)
  {
  }

  /** Rendering the cards after a further page renders the earlier cards and
      then the new page's cards. */
  lemma LoadMoreAppendsCards(d: InfiniteData, p: Page)
    requires Chained(d)
    ensures RenderCards(FormattedData(FetchNext(d, p).pages)) ==
      RenderCards(FormattedData(d.pages)) + RenderCards(p.data)
  {
    RenderCardsAppend(FormattedData(d.pages), p.data);
  }

  // ---------------------------------------------------------------------
  // Rendering
  // ---------------------------------------------------------------------

  /** What the query reports at one moment. */
  datatype QueryState = QueryState(isLoading: bool, isError: bool, isFetchingNextPage: bool, data: Option<InfiniteData>)

  /** A query that is neither loading nor failed holds at least one page. */
  predicate Settled(q: QueryState) {
    q.isLoading || q.isError || (q.data.Some? && Chained(q.data.value))
  }

  /** The three things the page can show; the content carries the cards and,
      when present, the label of the load-more button. */
  datatype HomeView = LoadingView | ErrorView | ContentView(cards: seq<Card>, loadMore: Option<string>)

  const FetchingLabel := "Carregando..."
  const LoadMoreLabel := "Carregar mais"

  function Render(q: QueryState): (v: HomeView)
    requires Settled(q)
    ensures v.LoadingView? <==> q.isLoading
    ensures v.ErrorView? <==> !q.isLoading && q.isError
    ensures v.ContentView? <==> !q.isLoading && !q.isError
    ensures v.ContentView? ==> v.cards == FormattedData(q.data.value.pages)
    ensures v.ContentView? ==> (v.loadMore.Some? <==> HasNextPage(q.data.value))
    ensures v.ContentView? && v.loadMore.Some? ==>
      (v.loadMore.value == FetchingLabel <==> q.isFetchingNextPage)
    ensures v.ContentView? && v.loadMore.Some? ==>
      (v.loadMore.value == LoadMoreLabel <==> !q.isFetchingNextPage)
  {
    if q.isLoading then LoadingView
    else if q.isError then ErrorView
    else
      var d := q.data.value;
      var button := if HasNextPage(d) then Some(if q.isFetchingNextPage then FetchingLabel else LoadMoreLabel) else None;
      ContentView(FormattedData(d.pages), button)
  }

  /** Page one holds card a and cursor "c1"; page two, fetched with "c1",
      holds card b and no cursor: the list shows a then b and the load-more
      button goes away. */
  lemma TwoPageScenario(a: Card, b: Card)
    ensures var d1 := FirstFetch(Page([a], Str("c1")));
      && Render(QueryState(false, false, false, Some(d1))) == ContentView([a], Some(LoadMoreLabel))
      && var d2 := FetchNext(d1, Page([b], Null));
      && RequestAfter(d2.pageParams[1]) == Str("c1")
      && Render(QueryState(false, false, false, Some(d2))) == ContentView([a, b], None)
  {
    var d1 := FirstFetch(Page([a], Str("c1")));
    var d2 := FetchNext(d1, Page([b], Null));
    assert FormattedData(d2.pages) == [a] + [b];
  }
}
