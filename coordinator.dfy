/**
 * `main`: starts the producer and 20 workers on its stream, each counted by `wg.Add(1)`, then
 * `wg.Wait()`s until all twenty have called `wg.Done()`. The workers run here one after another
 * on the shared stream, each taking over where the previous one stopped: one of the schedules
 * Go may choose.
 */
module Coordinator {
  import opened Houses
  import opened Fetcher
  import opened Producer
  import opened Worker

  const MaxGoroutines := 20

  /** How many workers reached `wg.Done()`, how many houses they received, and whose photos they wrote. */
  datatype Pool = Pool(done: nat, received: nat, saved: seq<House>)

  /** How the process ends. */
  datatype Exit =
    | Completed                          // `wg.Wait()` returns, exit status 0
    | Hangs                              // `wg.Wait()` or the producer's send never returns
    | FatalExit(page: nat, error: PageError)

  /** `n` workers as written, one after another, on the stream `items`. */
  function RunWorkers(items: seq<House>, closed: bool, outcomes: seq<ItemOutcome>, n: nat): (p: Pool)
    requires |items| <= |outcomes|
    ensures p.done <= n && p.received <= |items|
    ensures p.received < |items| ==> p.done == 0
    decreases n
  {
    if n == 0 then Pool(0, 0, [])
    else
      var w := Work(items, closed, outcomes);
      var rest := RunWorkers(items[w.received..], closed, outcomes[w.received..], n - 1);
      Pool((if w.SignalsDone() then 1 else 0) + rest.done, w.received + rest.received, w.saved + rest.saved)
  }

  /** `n` of the skipping workers, one after another, on the stream `items`. */
  function RunWorkersContinuing(items: seq<House>, closed: bool, outcomes: seq<ItemOutcome>, n: nat): (p: Pool)
    requires |items| <= |outcomes|
    ensures p.done <= n && p.received <= |items|
    decreases n
  {
    if n == 0 then Pool(0, 0, [])
    else
      var w := WorkContinuing(items, closed, outcomes);
      var rest := RunWorkersContinuing(items[w.received..], closed, outcomes[w.received..], n - 1);
      Pool((if w.SignalsDone() then 1 else 0) + rest.done, w.received + rest.received, w.saved + rest.saved)
  }

  /**
   * How a pool's run ends the process. Houses left unreceived mean every worker has returned
   * and the producer waits on its send for ever; a producer that died takes the process down
   * once its earlier houses are received; otherwise `wg.Wait()` returns only if every worker
   * called `wg.Done()`.
   */
  function Finish(produced: Produced, pool: Pool, n: nat): (e: Exit)
    ensures e == Completed <==> |produced.emitted| <= pool.received && produced.ending.Closed? && pool.done == n
    ensures e.FatalExit? <==> |produced.emitted| <= pool.received && produced.ending.Died?
    ensures e.FatalExit? ==> e.page == produced.ending.page && e.error == produced.ending.error
  {
    if pool.received < |produced.emitted| then Hangs
    else
      match produced.ending
      case Died(page, error) => FatalExit(page, error)
      case Closed => if pool.done == n then Completed else Hangs
  }

  /**
   * However the workers end, the process completes only if all ten pages load, and a fatal
   * exit names a page that failed to fetch or decode.
   */
  lemma FinishProduced(results: seq<FetchResult<PageBody>>, pool: Pool, n: nat)
    requires |results| == LastPage
    ensures Finish(Produce(results), pool, n) == Completed ==> OkThrough(results, LastPage)
    ensures Finish(Produce(results), pool, n).FatalExit? ==>
      var page := Finish(Produce(results), pool, n).page;
      FirstPage <= page <= LastPage && !PageOk(results[page - 1])
  {
    ProduceClosedIffAllPagesOk(results);
  }

  /**
   * The whole program as written. `results` holds what `requestWithRetry` returns for each
   * page, as `PipeHouses` obtains it (`Fetches` of the page oracles).
   */
  function Main(results: seq<FetchResult<PageBody>>, outcomes: seq<ItemOutcome>): (r: Exit)
    requires |results| == LastPage && |Produce(results).emitted| <= |outcomes|
    ensures r == Completed ==> OkThrough(results, LastPage)
    ensures r.FatalExit? ==> FirstPage <= r.page <= LastPage && !PageOk(results[r.page - 1])
  {
    var produced := Produce(results);
    var pool := RunWorkers(produced.emitted, produced.ending.Closed?, outcomes, MaxGoroutines);
    FinishProduced(results, pool, MaxGoroutines);
    Finish(produced, pool, MaxGoroutines)
  }

  /** The whole program with skipping workers. */
  function MainContinuing(results: seq<FetchResult<PageBody>>, outcomes: seq<ItemOutcome>): (r: Exit)
    requires |results| == LastPage && |Produce(results).emitted| <= |outcomes|
    ensures r == Completed ==> OkThrough(results, LastPage)
    ensures r.FatalExit? ==> FirstPage <= r.page <= LastPage && !PageOk(results[r.page - 1])
  {
    var produced := Produce(results);
    var pool := RunWorkersContinuing(produced.emitted, produced.ending.Closed?, outcomes, MaxGoroutines);
    FinishProduced(results, pool, MaxGoroutines);
    Finish(produced, pool, MaxGoroutines)
  }

  /** Workers that find the stream closed and empty all signal completion. */
  lemma {:induction false} EmptyClosedStreamAllDone(outcomes: seq<ItemOutcome>, n: nat)
    ensures RunWorkers([], true, outcomes, n).done == n
    ensures RunWorkersContinuing([], true, outcomes, n).done == n
    decreases n
  {
    if n > 0 {
      EmptyClosedStreamAllDone(outcomes, n - 1);
      assert outcomes[0..] == outcomes;
    }
  }

  /**
   * On a closed stream where no item fails, the first worker receives and saves every house
   * and every worker signals completion.
   */
  lemma RunWorkersAllSaved(items: seq<House>, outcomes: seq<ItemOutcome>, n: nat)
    requires |items| <= |outcomes| && 0 < n
    requires forall i | 0 <= i < |items| :: outcomes[i].Saved?
    ensures RunWorkers(items, true, outcomes, n) == Pool(n, |items|, items)
  {
    WorkAllSaved(items, true, outcomes);
    assert items[|items|..] == [];
    EmptyClosedStreamAllDone(outcomes[|items|..], n - 1);
    assert items + [] == items;
  }

  /** On a closed stream, skipping workers receive every house and all signal completion. */
  lemma RunWorkersContinuingClosed(items: seq<House>, outcomes: seq<ItemOutcome>, n: nat)
    requires |items| <= |outcomes| && 0 < n
    ensures RunWorkersContinuing(items, true, outcomes, n).done == n
    ensures RunWorkersContinuing(items, true, outcomes, n).received == |items|
  {
    assert items[|items|..] == [];
    EmptyClosedStreamAllDone(outcomes[|items|..], n - 1);
  }

  /** With no failed item, the program as written receives every house and completes. */
  lemma MainCompletesWithoutFailures(results: seq<FetchResult<PageBody>>, outcomes: seq<ItemOutcome>)
    requires |results| == LastPage && OkThrough(results, LastPage)
    requires |Produce(results).emitted| <= |outcomes|
    requires forall i | 0 <= i < |Produce(results).emitted| :: outcomes[i].Saved?
    ensures Main(results, outcomes) == Completed
  {
    ProduceClosedIffAllPagesOk(results);
    RunWorkersAllSaved(Produce(results).emitted, outcomes, MaxGoroutines);
  }

  /**
   * As written, one failed photo download is enough for the program never to complete with
   * status 0: the worker that meets it returns without `wg.Done()`, so `wg.Wait()` cannot return.
   */
  lemma MainHangsOnFailedItem(results: seq<FetchResult<PageBody>>, outcomes: seq<ItemOutcome>, k: nat)
    requires |results| == LastPage && OkThrough(results, LastPage)
    requires |Produce(results).emitted| <= |outcomes| && k < |Produce(results).emitted|
    requires forall i | 0 <= i < k :: outcomes[i].Saved?
    requires !outcomes[k].Saved?
    ensures Main(results, outcomes) == Hangs
  {
    ProduceClosedIffAllPagesOk(results);
    var items := Produce(results).emitted;
    WorkStopsAtFirstFailure(items, true, outcomes, k);
  }

  /**
   * As written, a bad page is a fatal exit when no house before it fails: the workers receive
   * every house sent, then block on the open stream until `log.Fatalf` ends the process.
   */
  lemma MainFatalOnBadPageNoFailures(results: seq<FetchResult<PageBody>>, outcomes: seq<ItemOutcome>, n: nat)
    requires |results| == LastPage && n < LastPage && OkThrough(results, n) && !PageOk(results[n])
    requires |Produce(results).emitted| <= |outcomes|
    requires forall i | 0 <= i < |Produce(results).emitted| :: outcomes[i].Saved?
    ensures Main(results, outcomes) == FatalExit(n + 1, DecodePage(results[n]).error)
  {
    ProduceStopsAtFirstBadPage(results, n);
    WorkAllSaved(Produce(results).emitted, false, outcomes);
  }

  /** With skipping workers, the program completes whenever all ten pages load, failures or not. */
  lemma MainContinuingCompletes(results: seq<FetchResult<PageBody>>, outcomes: seq<ItemOutcome>)
    requires |results| == LastPage && OkThrough(results, LastPage)
    requires |Produce(results).emitted| <= |outcomes|
    ensures MainContinuing(results, outcomes) == Completed
  {
    ProduceClosedIffAllPagesOk(results);
    RunWorkersContinuingClosed(Produce(results).emitted, outcomes, MaxGoroutines);
  }

  /** A bad page is a fatal exit for the skipping workers, once the houses before it are received. */
  lemma MainContinuingFatalOnBadPage(results: seq<FetchResult<PageBody>>, outcomes: seq<ItemOutcome>, n: nat)
    requires |results| == LastPage && n < LastPage && OkThrough(results, n) && !PageOk(results[n])
    requires |Produce(results).emitted| <= |outcomes|
    ensures MainContinuing(results, outcomes) == FatalExit(n + 1, DecodePage(results[n]).error)
  {
    ProduceStopsAtFirstBadPage(results, n);
  }
}
