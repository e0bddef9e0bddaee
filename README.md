# flaky-api pipeline, modelled in Dafny

The program fetches ten pages of houses from a paginated JSON API. It GETs a page up to 20 times,
trying again while the API answers with a status other than 200 OK. It streams every house to a pool of
20 download workers. Each worker saves the house's photo under a name derived from the house's
id, its address and the photo URL's extension.

This project models the sequential logic of that pipeline. The network, the JSON decoder and
the file system are replaced by oracle inputs:

- `houses.dfy`: module `Houses`. The `House` record, and Go's `%d` rendering of its id, with
  a parser that reads it back.
- `naming.dfy`: module `Naming`. `TrimRightDots` is `strings.TrimRight(s, ".")`. `Ext` is
  `filepath.Ext` with `/` as separator. `FileName` is the `"id-%d-%s.%s"` name a worker derives.
- `fetcher.dfy`: module `Fetcher`. `requestWithRetry` as a loop (`RequestWithRetry`), proved
  equal to the recursive specification `Retry`. The n-th GET returns the n-th element of an
  `Attempt` sequence: a transport error, or a response with a status and a body.
- `producer.dfy`: module `Producer`. `pipeHouses` as nested loops (`PipeHouses`), proved equal
  to `Produce` applied to what `Retry` gives for each page (`Fetches`). Page p is answered by its
  own attempt sequence, and its body is either a decoded `houses` document or malformed.
- `worker.dfy`: module `Worker`. The receive/process loop of `downloadHouseImages`
  (`DownloadHouseImages`), proved equal to `Work`. The stream is the houses still to be received
  plus a "closed" flag. An `ItemOutcome` per house says whether the photo GET, the create or the
  copy fails.
- `coordinator.dfy`: module `Coordinator`. `main`'s twenty workers and its `WaitGroup`, under a
  schedule where the workers run one after another on the shared stream. `Main` takes the ten
  per-page `requestWithRetry` results, which `PipeHouses` obtains from the page oracles as
  `Fetches`.

The model follows the code where the worker's own doc comment differs from it. That comment
(main.go:92-93) says the loop is left once the input channel is closed, and the wait group is
then released. The code also `return`s from the worker on a per-item error (main.go:108, 116,
123), and so skips `wg.Done()` (main.go:129). `Work` and `DownloadHouseImages` model that
return. The worker the doc comment implies, whose loop
ends when the channel is closed and which then releases the wait group, is modelled beside it as
`WorkContinuing`. It logs a failed item and goes on with the next house; the `logger.Printf`
calls before each `return` (main.go:107, 115, 122) show that the errors are reported. That they
were not meant to end the worker rests on the doc comment, which names the closed channel as
the way out of the loop (see Findings).

## Model

| member | source | states |
|---|---|---|
| `Houses.Digits` | main.go:97-99 | the decimal digits of a natural number: non-empty, all digits, no leading zero |
| `Houses.DigitsRoundTrip` | main.go:97-99 | reading the digits back gives the number |
| `Houses.Decimal` | main.go:97-99 | `%d` of an int: a leading '-' exactly for negative ids, digits otherwise |
| `Houses.DecimalRoundTrip` | main.go:97-99 | `ParseDecimal` undoes `Decimal`, so distinct ids render distinctly |
| `Naming.TrimRightDots` | main.go:100 | the result is a prefix of the address, does not end in '.', and only '.' characters were removed |
| `Naming.TrimRightDotsUnique` | main.go:100 | those three properties determine the trimmed address |
| `Naming.TrimRightDotsKeepsUndotted` | main.go:100 | an address without a trailing '.' is unchanged |
| `Naming.TrimRightDotsIdempotent` | main.go:100 | trimming twice equals trimming once |
| `Naming.TrimRightDotsIgnoresAddedDots` | main.go:100 | appending dots to an address leaves its trimmed form unchanged |
| `Naming.Ext` | main.go:101 | the extension is a suffix of the URL; non-empty, it is a '.' followed by neither '.' nor '/'; empty exactly when every '.' in the URL has a '/' after it |
| `Naming.ExtAppend` | main.go:101 | appending a character other than '.' or '/' to a URL extends a non-empty extension by that character and leaves an empty one empty |
| `Naming.ExtOfDottedName` | main.go:101 | a URL ending in "." plus a name without '.' or '/' has "." plus that name as extension |
| `Naming.FileName` | main.go:97-102 | the name a worker derives: "id-", the `%d` id, "-", the address with trailing dots trimmed, ".", then the photo URL's extension; its properties are the lemmas below |
| `Naming.FileNameDoubleDot` | main.go:97-102 | for a photo URL `base.name` the file name is "id-", the id, "-", the trimmed address, "..", then the name |
| `Naming.FileNameWithoutExtension` | main.go:97-102 | a photo URL whose last element has no '.' gives a name ending in a single '.' after the trimmed address |
| `Naming.FileNamesCollide` | main.go:97-102 | two houses with the same id and photo URL whose addresses differ only in trailing dots get the same file name |
| `Naming.DistinctIdsDistinctNames` | main.go:97-102 | houses with different ids never get the same file name, so a collision needs a repeated id |
| `Naming.DotBeforeExtension` | main.go:97-102 | as written, the name ends in "." plus the extension's name, and the character before that is another '.' |
| `Naming.FileNameSingleDot` | main.go:97-102 | the intended name: the trimmed address followed directly by the photo URL's extension, so one '.' before the extension's name |
| `Naming.SingleDotBeforeExtension` | main.go:97-102 | with the corrected format, the name ends in "." plus the extension's name and the character before is not '.' |
| `Fetcher.RetryFrom` | main.go:132-155 | at most 20 GETs; the fatal exit comes after exactly 20; any other outcome follows at least one GET and is what the last GET answered; a returned response has status 200 |
| `Fetcher.Retry` | main.go:132-155 | from the first GET: between 1 and 20 GETs, fatal only after exactly 20, a returned response has status 200, and a non-fatal result is decided by the last GET made |
| `Fetcher.RequestWithRetry` | main.go:132-155 | the loop over `tries` and `successful` returns what `Retry` specifies, including the number of GETs |
| `Fetcher.DecidedFrom` | main.go:139-153 | after non-200 answers up to GET k, an answer at k that is not a non-200 response ends the loop with k + 1 GETs |
| `Fetcher.DecidedAt` | main.go:139-153 | from the start: the first answer that is not a non-200 response is returned, after exactly k + 1 GETs |
| `Fetcher.SucceedsAfterRejections` | main.go:139-153 | k non-200 answers (k < 20), then a 200: that response with no error, after exactly k + 1 GETs |
| `Fetcher.TransportErrorNotRetried` | main.go:144-147 | a transport error is returned at once; no further GET is made |
| `Fetcher.FatalFrom` | main.go:141-152 | the fatal exit is taken exactly when every answer from the current try up to the 20th is non-200 |
| `Fetcher.AllRejectedIsFatal` | main.go:141-152 | twenty non-200 answers: exactly 20 GETs, then the fatal exit, never a 21st GET |
| `Fetcher.FatalOnlyAfterTwentyRejections` | main.go:141-152 | the fatal exit is never taken earlier: it implies twenty non-200 answers |
| `Fetcher.OnlyMadeGetsMatter` | main.go:139-153 | oracles that agree on the GETs made give the same outcome, so no GET follows the deciding one |
| `Producer.Fetches` | main.go:65-67 | one `requestWithRetry` result per page, ten in all |
| `Producer.DecodePage` | main.go:67-76 | a page yields houses exactly when it was fetched with status 200 and its body decodes, and then they are the body's houses; an unusable page's error is `RetriesExhausted` exactly for the fatal retry exit, and a transport error keeps its reason |
| `Producer.ProduceFrom` | main.go:65-82 | at most page 10 is requested, and every page from the starting one up to the last requested; a closed stream means page 10 was requested; a dead run names the last requested page, which failed to fetch or decode |
| `Producer.Produce` | main.go:62-87 | from page 1: between 1 and 10 pages are requested; a closed stream means page 10 was requested; a dead run names the last requested page, which failed to fetch or decode |
| `Producer.ProduceSplit` | main.go:65-81 | after n good pages, the run has sent their houses in page and list order and continues from page n + 1 |
| `Producer.ProduceAllPagesOk` | main.go:65-82 | ten good pages: exactly the concatenation of their houses is sent, then the stream is closed |
| `Producer.ProduceStopsAtFirstBadPage` | main.go:67-76 | a failed fetch or decode of page n + 1 ends the run: only earlier pages' houses are sent, no later page is requested, the stream stays open |
| `Producer.ClosedFromIffPagesOk` | main.go:65-82 | from any page on, the stream is closed if and only if every remaining page loads |
| `Producer.ProduceClosedIffAllPagesOk` | main.go:65-82 | the stream is closed if and only if all ten pages load |
| `Producer.SendAll` | main.go:78-80 | the inner loop sends a page's houses after everything sent before, in list order |
| `Producer.PipeHouses` | main.go:62-87 | the nested page and house loops, with `RequestWithRetry` per page, produce what `Produce` specifies for the results `Retry` gives |
| `Worker.Work` | main.go:94-130 | a worker receives at most the stream; an abandoned run ended on a failed item; it stops early only by abandoning |
| `Worker.WorkAllSaved` | main.go:95-129 | no failures: every house is received and its photo response body written, in stream order, with completion signalled iff the stream is closed |
| `Worker.WorkStopsAtFirstFailure` | main.go:104-124 | the first failed GET, create or copy stops the worker after that house; the photo responses of the houses before it are written and no completion is signalled |
| `Worker.WorkSignalsDoneIff` | main.go:95-129 | a worker calls `wg.Done()` exactly when the stream is closed and none of its houses fails |
| `Worker.WorkStep` | main.go:95-124 | one turn of the loop: a saved house is received and recorded before the rest of the stream; a failed one ends the run there |
| `Worker.DownloadHouseImages` | main.go:94-130 | the receive/process loop does what `Work` specifies |
| `Worker.WorkContinuing` | main.go:89-93 | the skipping worker receives every house and signals completion exactly when the stream is closed |
| `Worker.ContinuingSavesEverySuccess` | main.go:89-93 | the skipping worker writes the photo response of every house whose GET, create and copy succeed |
| `Worker.ContinuingAgreesWithoutFailures` | main.go:89-93 | without failures the skipping worker behaves exactly as the worker as written |
| `Coordinator.RunWorkers` | main.go:52-56 | at most n workers signal completion; if houses are left unreceived, none did |
| `Coordinator.RunWorkersContinuing` | main.go:52-56 | at most n skipping workers signal completion, and they receive at most the stream |
| `Coordinator.Finish` | main.go:52-58 | completed exactly when every sent house was received, the stream was closed and all n workers called `wg.Done()`; a fatal exit exactly when the houses sent before the producer died were received, naming its page and error; otherwise the process hangs in `wg.Wait()` or in the producer's send (main.go:56, 79) |
| `Coordinator.FinishProduced` | main.go:41-58 | whatever the workers do, the process completes only if all ten pages load, and a fatal exit names a page that failed |
| `Coordinator.Main` | main.go:41-58 | the program as written: completion implies all ten pages loaded; a fatal exit names a page between 1 and 10 that failed |
| `Coordinator.MainContinuing` | main.go:41-58 | the program with skipping workers: the same two guarantees |
| `Coordinator.EmptyClosedStreamAllDone` | main.go:125-129 | workers that find the stream closed and empty all call `wg.Done()` |
| `Coordinator.RunWorkersAllSaved` | main.go:52-56 | on a closed stream with no failure, all houses are received and their photo responses written in order, and all n workers call `wg.Done()` |
| `Coordinator.RunWorkersContinuingClosed` | main.go:52-56 | on a closed stream, skipping workers receive every house and all n call `wg.Done()` |
| `Coordinator.MainCompletesWithoutFailures` | main.go:41-58 | ten good pages and no failed download: the program completes |
| `Coordinator.MainHangsOnFailedItem` | main.go:106-129 | ten good pages and one failed download: `wg.Wait()` never returns |
| `Coordinator.MainFatalOnBadPageNoFailures` | main.go:41-58 | as written, a bad page with no failed house before it ends the process fatally, naming that page and its error |
| `Coordinator.MainContinuingCompletes` | main.go:89-93 | with skipping workers, ten good pages always let the program complete |
| `Coordinator.MainContinuingFatalOnBadPage` | main.go:67-76 | with skipping workers, a bad page ends the process fatally, naming that page |

## Left out

- HTTP: `net/http`, the 30-second client timeout and response bodies are left out. Each GET is
  the next answer of an oracle sequence. Every page's oracle must hold at least 20 answers,
  which is as many GETs as the retry loop can make.
- JSON decoding with `encoding/json` is left out. A page body is already a decoded list of
  houses, or malformed.
- File creation and `io.Copy` are left out, together with the bytes written. A worker's run
  records the houses whose photo response body it wrote in full; house h's file is
  `FileName(h)`. Each house has one outcome: saved, or which of GET, create and copy failed.
- Worker.ItemOutcome: the photo GET counts as failed only on a transport error. The worker never
  reads the photo response's status code (main.go:105-124), so a 404 or 500 answer still has
  its error body written under `FileName(h)`. The model counts that as `Saved`, and "saved"
  means only that some response body was written in full, not that it is an image. A failed copy leaves a partial file,
  which the model does not record. Writing a name a second time overwrites the file, and the
  model does not record that either (`FileNamesCollide` shows such names exist).
- Concurrency is left out: goroutines, the unbuffered channel and the N-worker race. Which
  worker receives which house, and receipt exactly once across workers, are not modelled.
- Coordinator.RunWorkers: proved for one schedule only, where workers run one after another.
  So `MainHangsOnFailedItem` is proved for that schedule only. The result holds under every
  interleaving, because no worker returns before the first failing house is received. The
  channel hands houses out in order, so some live worker receives that house, returns at
  main.go:108, 116 or 123, and never reaches `wg.Done()` (main.go:129). The count set by
  `wg.Add(1)` (main.go:53) then never reaches zero. The model does not prove this general
  statement.
- `log.Fatalf` and logging are left out. The fatal exit is the value `Fatal`, `Died` or
  `FatalExit`, and the lines logged are not modelled.
- The deferred `Close` calls are left out, because they concern resource lifetime only.
- The endpoint URL `fmt.Sprintf` is left out. Pages are identified by their number.
- Naming.Ext: models `filepath.Ext` on Unix, where '/' is the only separator. The Windows
  separator '\' is not modelled.
- Houses.Decimal: ids are unbounded integers. Go's 64-bit `int` range is left to the JSON
  decoder, which is not part of this model.
- The earlier, non-pipelined version of the program that the comment at main.go:39-40 compares
  against is not part of this model.

## Findings

| source | as written | input that shows it | evidently intended | confidence | as-written member | corrected member |
|---|---|---|---|---|---|---|
| main.go:106-129 | a failed photo GET, create or copy `return`s from the worker before `wg.Done()` | ten good pages whose first house's photo GET fails | log the error and go on with the next house, signalling completion when the stream is closed (main.go:89-93) | high; not executed | `Coordinator.MainHangsOnFailedItem` | `Coordinator.MainContinuingCompletes` |
| main.go:97-102 | `"id-%d-%s.%s"` puts a '.' before `filepath.Ext`, which already starts with '.' | a house with address "Main St" and photo URL "http://h/a.jpg" gets "id-1-Main St..jpg" | one '.' between the trimmed address and the extension | medium; not executed | `Naming.DotBeforeExtension` | `Naming.SingleDotBeforeExtension` |

The worker and coordinator use the code's behaviour: `Work` and `FileName`. The corrected
definitions, `WorkContinuing` with `MainContinuing` and `FileNameSingleDot`, stand beside them
with their intended properties proved.
