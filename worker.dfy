/**
 * `downloadHouseImages`: one worker's loop. It receives houses from the stream one at a time,
 * derives each file name, GETs the photo, creates the file and copies the body into it. As the
 * code is written, the first error in any of those steps makes the worker return at once: it
 * receives nothing more and never reaches `wg.Done()`. Only a closed, drained stream lets it
 * signal completion. The stream is the sequence of houses still to be received plus whether the
 * producer has closed it; `outcomes[i]` says how the network and file system treat item i.
 */
module Worker {
  import opened Houses

  /**
   * How the photo GET, `os.Create` and `io.Copy` go for one house. The worker never looks at
   * the photo response's status code, so any HTTP answer, a 404 or a 500 included, has its body
   * written to the file: `Saved` means that body was copied in full, whatever the status, and
   * `GetFailed` is a transport error only.
   */
  datatype ItemOutcome =
    | Saved                          // a response arrived, with any status, and its body was written
    | GetFailed(reason: string)      // transport error: no response at all
    | CreateFailed(reason: string)
    | CopyFailed(reason: string)

  /**
   * How a worker's loop ends: the stream was closed and drained (then `wg.Done()` runs), it
   * returned on a failed item, or it waits forever on an open, empty stream.
   */
  datatype Stop = Drained | Abandoned(house: House, failure: ItemOutcome) | Blocked

  /**
   * How many houses the worker received, the houses whose photo response body it wrote in full
   * (house h's file is `FileName(h)`), and how it stopped.
   */
  datatype Run = Run(received: nat, saved: seq<House>, stop: Stop) {
    /** The worker reaches `wg.Done()`. */
    predicate SignalsDone() {
      stop.Drained?
    }
  }

  /** Adds what an earlier part of the loop did in front of a later part's run. */
  function Resume(received: nat, saved: seq<House>, r: Run): Run {
    Run(received + r.received, saved + r.saved, r.stop)
  }

  /** The worker as written: returns on the first failed item. */
  function Work(items: seq<House>, closed: bool, outcomes: seq<ItemOutcome>): (r: Run)
    requires |items| <= |outcomes|
    ensures r.received <= |items|
    ensures r.stop.Abandoned? ==> 0 < r.received && !outcomes[r.received - 1].Saved?
    ensures r.received < |items| ==> r.stop.Abandoned?
    decreases |items|
  {
    if items == [] then Run(0, [], if closed then Drained else Blocked)
    else if outcomes[0].Saved? then Resume(1, [items[0]], Work(items[1..], closed, outcomes[1..]))
    else Run(1, [], Abandoned(items[0], outcomes[0]))
  }

  /** Every item saved: all of them received, one file per item in order, done iff closed. */
  lemma {:induction false} WorkAllSaved(items: seq<House>, closed: bool, outcomes: seq<ItemOutcome>)
    requires |items| <= |outcomes|
    requires forall i | 0 <= i < |items| :: outcomes[i].Saved?
    ensures Work(items, closed, outcomes) == Run(|items|, items, if closed then Drained else Blocked)
    decreases |items|
  {
    if items != [] {
      WorkAllSaved(items[1..], closed, outcomes[1..]);
      assert [items[0]] + items[1..] == items;
    }
  }

  /**
   * The first failed item ends the worker: it has received that item and no more, written
   * the files of the items before it, and will not signal completion.
   */
  lemma {:induction false} WorkStopsAtFirstFailure(items: seq<House>, closed: bool, outcomes: seq<ItemOutcome>, k: nat)
    requires |items| <= |outcomes| && k < |items|
    requires forall i | 0 <= i < k :: outcomes[i].Saved?
    requires !outcomes[k].Saved?
    ensures Work(items, closed, outcomes) == Run(k + 1, items[..k], Abandoned(items[k], outcomes[k]))
    decreases k
  {
    if k > 0 {
      WorkStopsAtFirstFailure(items[1..], closed, outcomes[1..], k - 1);
      assert [items[0]] + items[1..][..k - 1] == items[..k];
    }
  }

  /** A worker signals completion exactly when the stream is closed and none of its items fails. */
  lemma {:induction false} WorkSignalsDoneIff(items: seq<House>, closed: bool, outcomes: seq<ItemOutcome>)
    requires |items| <= |outcomes|
    ensures Work(items, closed, outcomes).SignalsDone() <==> closed && forall i | 0 <= i < |items| :: outcomes[i].Saved?
    decreases |items|
  {
    if items != [] && outcomes[0].Saved? {
      WorkSignalsDoneIff(items[1..], closed, outcomes[1..]);
      assert forall i | 1 <= i < |items| :: outcomes[i] == outcomes[1..][i - 1];
    }
  }

  /** One turn of the loop: receiving the house at position k of the stream. */
  lemma WorkStep(items: seq<House>, closed: bool, outcomes: seq<ItemOutcome>, k: nat)
    requires |items| <= |outcomes| && k < |items|
    ensures Work(items[k..], closed, outcomes[k..])
      == if outcomes[k].Saved? then Resume(1, [items[k]], Work(items[k + 1..], closed, outcomes[k + 1..]))
         else Run(1, [], Abandoned(items[k], outcomes[k]))
  {
    assert items[k..][1..] == items[k + 1..];
    assert outcomes[k..][1..] == outcomes[k + 1..];
  }

  /** The receive/process loop of `downloadHouseImages`. */
  method DownloadHouseImages(items: seq<House>, closed: bool, outcomes: seq<ItemOutcome>) returns (r: Run)
    requires |items| <= |outcomes|
    ensures r == Work(items, closed, outcomes)
  {
    var received := 0;
    var saved: seq<House> := [];
    while true
      invariant received <= |items|
      invariant Work(items, closed, outcomes)
        == Resume(received, saved, Work(items[received..], closed, outcomes[received..]))
      decreases |items| - received
    {
      if received == |items| {
        if closed {
          break;
        }
        // Receiving from an open, empty stream never returns.
        return Run(received, saved, Blocked);
      }
      var house := items[received];
      var outcome := outcomes[received];
      WorkStep(items, closed, outcomes, received);
      received := received + 1;
      // The photo is saved as FileName(house); a failed GET, create or copy logs the error
      // and returns.
      if !outcome.Saved? {
        return Run(received, saved, Abandoned(house, outcome));
      }
      saved := saved + [house];
    }
    r := Run(received, saved, Drained);
  }

  /**
   * The worker its doc comment (main.go:92-93) implies: its loop ends when the input channel
   * is closed, and it then releases the wait group. A failed item is logged, as the code does
   * before each of its returns, and skipped.
   */
  function WorkContinuing(items: seq<House>, closed: bool, outcomes: seq<ItemOutcome>): (r: Run)
    requires |items| <= |outcomes|
    ensures r.received == |items|
    ensures r.SignalsDone() <==> closed
    ensures !r.stop.Abandoned?
    decreases |items|
  {
    if items == [] then Run(0, [], if closed then Drained else Blocked)
    else
      var kept := if outcomes[0].Saved? then [items[0]] else [];
      Resume(1, kept, WorkContinuing(items[1..], closed, outcomes[1..]))
  }

  /** The skipping worker writes the file of every item whose download succeeds. */
  lemma {:induction false} ContinuingSavesEverySuccess(items: seq<House>, closed: bool, outcomes: seq<ItemOutcome>, k: nat)
    requires |items| <= |outcomes| && k < |items| && outcomes[k].Saved?
    ensures items[k] in WorkContinuing(items, closed, outcomes).saved
    decreases k
  {
    if k > 0 {
      ContinuingSavesEverySuccess(items[1..], closed, outcomes[1..], k - 1);
    }
  }

  /** When nothing fails, the skipping worker and the worker as written do the same. */
  lemma {:induction false} ContinuingAgreesWithoutFailures(items: seq<House>, closed: bool, outcomes: seq<ItemOutcome>)
    requires |items| <= |outcomes|
    requires forall i | 0 <= i < |items| :: outcomes[i].Saved?
    ensures WorkContinuing(items, closed, outcomes) == Work(items, closed, outcomes)
    decreases |items|
  {
    if items != [] {
      ContinuingAgreesWithoutFailures(items[1..], closed, outcomes[1..]);
    }
  }
}
