/**
 * `pipeHouses`: fetch pages 1..10 in turn, decode each as a `houses` document and send its
 * houses, in list order, on the output stream; close the stream after page 10. A failed fetch
 * or a body that does not decode ends the process (`log.Fatalf`), so the stream is never closed.
 * Page p's GETs are answered by the oracle `pages[p - 1]`; JSON decoding is abstracted into the
 * body either being a decoded `houses` document or malformed.
 */
module Producer {
  import opened Houses
  import opened Fetcher

  const FirstPage := 1
  const LastPage := 10

  /** A page's response body, as the JSON decoder sees it. */
  datatype PageBody = Json(houses: seq<House>) | Malformed

  /** Why a page could not be used. */
  datatype PageError = RetriesExhausted | TransportFailed(reason: string) | DecodeFailed

  /** What fetching and decoding one page gives. */
  datatype PageOutcome = Decoded(houses: seq<House>) | Unusable(error: PageError)

  /** How the stream ends: closed after the last page, or never, because the process exited. */
  datatype Ending = Closed | Died(page: nat, error: PageError)

  /** Everything sent on the stream, how it ended, and the last page requested. */
  datatype Produced = Produced(emitted: seq<House>, ending: Ending, requested: nat)

  /** One oracle per page, each answering every GET `requestWithRetry` can make. */
  predicate Oracle(pages: seq<seq<Attempt<PageBody>>>) {
    |pages| == LastPage && forall p | 0 <= p < |pages| :: Answers(pages[p])
  }

  /** What `requestWithRetry` returns for each page; page p's result is at index p - 1. */
  function Fetches(pages: seq<seq<Attempt<PageBody>>>): (results: seq<FetchResult<PageBody>>)
    requires Oracle(pages)
    ensures |results| == LastPage
  {
    seq(LastPage, q requires 0 <= q < LastPage => Retry(pages[q]).result)
  }

  /** What `pipeHouses` makes of the result of `requestWithRetry`: decoded houses or a fatal error. */
  function DecodePage(result: FetchResult<PageBody>): (o: PageOutcome)
    ensures o.Decoded? <==> result.Fetched? && result.response.body.Json?
    ensures o.Decoded? ==> o.houses == result.response.body.houses
    ensures o.Unusable? ==> (o.error == RetriesExhausted <==> result.Fatal?)
    ensures o.Unusable? && result.Failed? ==> o.error == TransportFailed(result.reason)
  {
    match result
    case Fatal => Unusable(RetriesExhausted)
    case Failed(reason) => Unusable(TransportFailed(reason))
    case Fetched(response) =>
      match response.body
      case Malformed => Unusable(DecodeFailed)
      case Json(houses) => Decoded(houses)
  }

  /** The page was fetched with status 200 and its body decodes. */
  predicate PageOk(result: FetchResult<PageBody>) {
    DecodePage(result).Decoded?
  }

  /** Pages 1..n all fetch and decode. */
  predicate OkThrough(results: seq<FetchResult<PageBody>>, n: nat)
    requires n <= |results|
  {
    forall q | 0 <= q < n :: PageOk(results[q])
  }

  /** The houses of pages 1..n, in page order and then list order. */
  function HousesThrough(results: seq<FetchResult<PageBody>>, n: nat): seq<House>
    requires n <= |results| && OkThrough(results, n)
  {
    if n == 0 then [] else HousesThrough(results, n - 1) + DecodePage(results[n - 1]).houses
  }

  /** Puts `houses` in front of what a later part of the run sent. */
  function Prepend(houses: seq<House>, p: Produced): Produced {
    p.(emitted := houses + p.emitted)
  }

  /** The producer from page `page` on. */
  function ProduceFrom(results: seq<FetchResult<PageBody>>, page: nat): (p: Produced)
    requires |results| == LastPage && FirstPage <= page <= LastPage + 1
    ensures p.requested <= LastPage && (page <= LastPage ==> page <= p.requested)
    ensures p.ending.Closed? ==> p.requested == LastPage
    ensures p.ending.Died? ==> FirstPage <= p.requested && p.ending.page == p.requested && !PageOk(results[p.requested - 1])
    decreases LastPage + 1 - page
  {
    if page > LastPage then Produced([], Closed, LastPage)
    else
      match DecodePage(results[page - 1])
      case Unusable(error) => Produced([], Died(page, error), page)
      case Decoded(houses) => Prepend(houses, ProduceFrom(results, page + 1))
  }

  /** `pipeHouses` from page 1. */
  function Produce(results: seq<FetchResult<PageBody>>): (p: Produced)
    requires |results| == LastPage
    ensures FirstPage <= p.requested <= LastPage
    ensures p.ending.Closed? ==> p.requested == LastPage
    ensures p.ending.Died? ==> p.ending.page == p.requested && !PageOk(results[p.requested - 1])
  {
    ProduceFrom(results, FirstPage)
  }

  /** After n good pages the run has sent their houses and goes on from page n + 1. */
  lemma {:induction false} ProduceSplit(results: seq<FetchResult<PageBody>>, n: nat)
    requires |results| == LastPage && n <= LastPage && OkThrough(results, n)
    ensures Produce(results) == Prepend(HousesThrough(results, n), ProduceFrom(results, n + 1))
  {
    if n == 0 {
      assert [] + Produce(results).emitted == Produce(results).emitted;
    } else {
      assert OkThrough(results, n - 1);
      ProduceSplit(results, n - 1);
      var rest := ProduceFrom(results, n + 1);
      var houses := DecodePage(results[n - 1]).houses;
      assert ProduceFrom(results, n) == Prepend(houses, rest);
      assert HousesThrough(results, n - 1) + (houses + rest.emitted) == HousesThrough(results, n) + rest.emitted;
    }
  }

  /** All ten pages good: exactly their houses, in order, then the stream is closed. */
  lemma ProduceAllPagesOk(results: seq<FetchResult<PageBody>>)
    requires |results| == LastPage && OkThrough(results, LastPage)
    ensures Produce(results) == Produced(HousesThrough(results, LastPage), Closed, LastPage)
  {
    ProduceSplit(results, LastPage);
    assert HousesThrough(results, LastPage) + [] == HousesThrough(results, LastPage);
  }

  /**
   * The first bad page ends the run: the houses of the pages before it have been sent, no
   * later page is requested, and the stream is not closed.
   */
  lemma ProduceStopsAtFirstBadPage(results: seq<FetchResult<PageBody>>, n: nat)
    requires |results| == LastPage && n < LastPage && OkThrough(results, n) && !PageOk(results[n])
    ensures Produce(results) == Produced(HousesThrough(results, n), Died(n + 1, DecodePage(results[n]).error), n + 1)
  {
    ProduceSplit(results, n);
    assert HousesThrough(results, n) + [] == HousesThrough(results, n);
  }

  /** From page `page` on, the stream is closed exactly when every remaining page is good. */
  lemma {:induction false} ClosedFromIffPagesOk(results: seq<FetchResult<PageBody>>, page: nat)
    requires |results| == LastPage && FirstPage <= page <= LastPage + 1
    ensures ProduceFrom(results, page).ending.Closed? <==> forall q | page - 1 <= q < LastPage :: PageOk(results[q])
    decreases LastPage + 1 - page
  {
    if page <= LastPage && PageOk(results[page - 1]) {
      ClosedFromIffPagesOk(results, page + 1);
    }
  }

  /** The stream is closed exactly when every one of the ten pages is good. */
  lemma ProduceClosedIffAllPagesOk(results: seq<FetchResult<PageBody>>)
    requires |results| == LastPage
    ensures Produce(results).ending.Closed? <==> OkThrough(results, LastPage)
  {
    ClosedFromIffPagesOk(results, FirstPage);
  }

  /** The inner loop of `pipeHouses`: sends the houses of one page, in list order. */
  method SendAll(out: seq<House>, houses: seq<House>) returns (sent: seq<House>)
    ensures sent == out + houses
  {
    sent := out;
    for j := 0 to |houses|
      invariant sent == out + houses[..j]
    {
      sent := sent + [houses[j]];
    }
    assert houses[..|houses|] == houses;
  }

  /** The page loop of `pipeHouses`, fetching each page with `RequestWithRetry`. */
  method PipeHouses(pages: seq<seq<Attempt<PageBody>>>) returns (p: Produced)
    requires Oracle(pages)
    ensures p == Produce(Fetches(pages))
  {
    ghost var results := Fetches(pages);
    var out: seq<House> := [];
    for i := FirstPage to LastPage + 1
      invariant OkThrough(results, i - 1) && out == HousesThrough(results, i - 1)
    {
      var f := RequestWithRetry(pages[i - 1]);
      assert f.result == results[i - 1];
      var page := DecodePage(f.result);
      if page.Unusable? {
        ProduceStopsAtFirstBadPage(results, i - 1);
        return Produced(out, Died(i, page.error), i);
      }
      out := SendAll(out, page.houses);
    }
    ProduceAllPagesOk(results);
    p := Produced(out, Closed, LastPage);
  }
}
