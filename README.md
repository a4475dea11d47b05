# rquent's pipeline, colour tracker and hex rendering, in Dafny

rquent is a Go batch tool. It reads image URLs line by line and downloads each image. It then finds
the three most prevalent colours of each image and writes one row per image,
`url,#rrggbb,#rrggbb,#rrggbb`. The work is spread over goroutines that pass jobs through channels.
This project models the sequential core of that tool and proves properties of the model:

- **colors.dfy** (`Colors`): `color.NRGBA`, the placeholder colour `NRGBA{}` and `hexify`
  (util.go; image.go repeats it word for word). The model gives its inverse and proves the round
  trip, injectivity on R, G and B, and that alpha is ignored.
- **prevalent.dfy** (`Prevalent`): `getPrevalentColors`. The image is its NRGBA pixel buffer.
  - The nested loops, the count map and the three-slot array `mostColors` are kept as they are.
    The array is a Dafny `array` updated in place.
  - The loops are proved against a specification `Run` over the pixels in column-major order.
  - Slot invariants are proved about `Run`: placeholders last, distinct colours taken from the
    image, min(3, distinct colours) filled slots, and exact counts.
  - The documented "sorted order of prevalence" is proved for images made of runs of
    non-increasing length, and refuted in general.
- **rows.dfy** (`Rows`): the output row of `writeResults`. It follows Go's `strings.Join`; the model
  adds a split that reads a row back, the round trip for comma-free fields, and the collision a comma
  in a URL causes.
- **jobs.dfy** (`Jobs`): the job records and the rules applied to them by value.
  - `NewRqError` and the eviction rule of `handleError`.
  - How a worker rebinds a job it dequeues.
  - The retry bound: the third failure evicts.
  - The contracts of `downloadImage`, `summarizeImage` and `cleanupImage` over an abstract set of
    existing temporary files.
  - `Init`'s checks.
  - The token arithmetic of `stopWorkers` against the goroutines `Run` starts.
- **steps.dfy** (`Steps`): the pipeline as a sequential state machine.
  - The five channels are FIFO sequences and `imageCount` is a `uint64` with explicit wrap-around.
  - `readURLsDone` is a flag and the `stopOnce` latch records who closed it.
  - `writerExited` and `handlerExited` record that `writeResults` returned and that
    `handleErrors` left its loop.
  - Each step is one action of one goroutine: admit a line, run one stage, write one result, or
    handle one error.
  - The steps are those of the corrected program; see Findings.
    - `readURLs` checks completion after setting its flag.
    - `stopWorkers` sends one token per goroutine that can receive one.
    - A handler that completes the pipeline leaves its own loop.
    - The program as written is modelled alongside, by `FinishReadingAsWritten` and
      `StopAsWritten`.
  - Each step preserves the invariant `Good` (corrected program):
    - the counter equals the number of jobs in the channels, modulo 2^64;
    - every queued job is routed as its channel's sender routes it;
    - the latch has sent one token per goroutine that can receive one;
    - the handler has exited exactly when it closed the latch.
  - Each step also preserves `NoMissedCompletion` (corrected program): whenever `isDone` holds,
    shutdown has been started.
- **pipeline.dfy** (`Pipeline`): `RqPipeline` as a class whose fields are the channels, the counter,
  the flag and the latch.
  - Each method performs one step in place, and its contract ties the new fields to the step function
    in `Steps`.
  - Ghost totals of admitted, saved and evicted jobs give the conservation law
    `imageCount == admitted - saved - evicted`.

## Model

| member | source | states |
|---|---|---|
| Colors.OpaqueIsNotPlaceholder | image.go:51 | a colour with alpha 255, as every pixel read is, never equals the placeholder `NRGBA{}` |
| Colors.Hex2 | util.go:14 | `%.2x` of a byte is exactly two lower-case hex digits |
| Colors.Hexify | util.go:13-15 | the rendering has 7 characters, `#` then six lower-case hex digits (image.go:46-48 declares the same function) |
| Colors.Hex2RoundTrip | util.go:14 | the two digits of `%.2x` parse back to the byte (zero padding included) |
| Colors.HexifyDigits | util.go:14 | characters 1-2, 3-4 and 5-6 are the digits of R, G and B, in that order |
| Colors.HexifyRoundTrip | util.go:14 | parsing `#rrggbb` recovers (R, G, B) |
| Colors.HexifyInjective | util.go:14 | two colours render alike if and only if their R, G and B agree |
| Colors.HexifyIgnoresAlpha | util.go:14 | changing alpha does not change the rendering; the placeholder and opaque black both give `#000000` |
| Colors.HexifyExamples | util.go:14 | {255,0,0,255} gives `#ff0000`, {0,0,0,255} gives `#000000`, {18,171,9,7} gives `#12ab09` |
| Colors.HexifyHasNoComma | util.go:14 | a rendering never contains `,` |
| Prevalent.PixelIndexInBounds | image.go:67-71 | for an in-bounds (x, y) with stride 4·width, the index is ≥ 0 and index+2 is inside the pixel buffer |
| Prevalent.ColorAt | image.go:70-71 | the colour read at (x, y) has alpha 255 |
| Prevalent.ReadPixel | image.go:70-71 | the loop body's read of pixel (x, y) is that pixel's R, G, B with alpha 255 |
| Prevalent.Promote | image.go:76-83 | case 1 keeps three slots |
| Prevalent.Insert | image.go:84-95 | case 2 puts the new colour in one of the three slots |
| Prevalent.StepMost | image.go:76-96 | the slot update keeps three slots |
| Prevalent.Step | image.go:72-96 | one pixel raises the count of its colour by one and keeps three slots |
| Prevalent.Run | image.go:67-98 | the tracker state after a sequence of pixels has three slots |
| Prevalent.Summary | image.go:54-101 | the result of `getPrevalentColors` for an image has three slots |
| Prevalent.ColumnsBeforeOpaque | image.go:67-71 | every pixel visited by the loops is opaque |
| Prevalent.UpdateMostColors | image.go:76-96 | in place, the three slots become the single swap of case 1 or the insertion of case 2 (`StepMost`) |
| Prevalent.CountPixel | image.go:72-96 | counting c and updating the slots is one tracker step `Step` |
| Prevalent.ScanColumn | image.go:68-97 | after the inner loop the count map and slots are the tracker's state after the pixels before it plus column x |
| Prevalent.GetPrevalentColors | image.go:54-101 | the result is `Run` over all pixels in column-major order: 3 slots, placeholders last, distinct colours that occur in the image, min(3, distinct colours) of them |
| Prevalent.RunCounts | image.go:56-72 | after any prefix of pixels, the count of every colour is its number of occurrences so far |
| Prevalent.PlaceholderNeverCounted | image.go:57-72 | the placeholder's count stays 0 |
| Prevalent.PromoteTracked | image.go:76-83 | a swap keeps the slot invariant: no colour enters or leaves |
| Prevalent.InsertFreeTracked | image.go:84-95 | a new colour takes the first empty slot, keeping placeholders last and colours distinct |
| Prevalent.InsertFullTracked | image.go:84-95 | with all slots full, overwriting slot 2 keeps three distinct colours from the image |
| Prevalent.StepTracked | image.go:72-96 | one opaque pixel preserves the slot invariant `Tracked` |
| Prevalent.RunTracked | image.go:67-98 | the slot invariant holds after every prefix of opaque pixels |
| Prevalent.SummaryTracked | image.go:54-101 | for every well-formed image the summary satisfies the slot invariant |
| Prevalent.SingleColour | image.go:84-95 | a non-empty pixel sequence of one opaque colour c gives the slots [c, placeholder, placeholder] |
| Prevalent.SingleColourImage | image.go:54-101 | a non-empty well-formed image whose every pixel is c summarises to [c, placeholder, placeholder] |
| Prevalent.FirstPixelOfRun | image.go:84-95 | the first pixel of the k-th run puts its colour in slot k when k < 3 and otherwise changes nothing |
| Prevalent.LaterPixelOfRun | image.go:76-83 | later pixels of a run no longer than the earlier ones never swap |
| Prevalent.RunTail | image.go:76-95 | part-way through the run of c, the slots are the first three run colours |
| Prevalent.RunShapedSorted | image.go:53 | for runs of distinct opaque colours of non-increasing length, slot i holds the i-th run's colour and the rest are placeholders |
| Prevalent.SlotsForRedGreenBlueBlue | image.go:76-95 | the pixels R, G, B, B give the slots [R, B, G] |
| Prevalent.NotSortedByPrevalence | image.go:53 | for R, G, B, B the slots are [R, B, G] although B occurs more often than R: the result is not sorted by prevalence |
| Rows.Row | pipeline.go:163-165 | a row ends in a newline, and when neither the URL nor any colour holds a newline, that final newline is the row's only one |
| Rows.IndexOf | pipeline.go:165 | the first separator position, absent exactly when the separator does not occur |
| Rows.SplitJoin | pipeline.go:165 | splitting a `strings.Join` of separator-free fields gives the fields back |
| Rows.RowRoundTrip | pipeline.go:163-165 | a row whose URL and colours contain no comma reads back as that URL and those colours |
| Rows.HexifiedPlain | pipeline.go:164 | the rendered colours never contain the row separator |
| Rows.RowAmbiguous | pipeline.go:163-165 | the URL `a,b` with colours [`#000000`] and the URL `a` with fields [`b`, `#000000`] write the same row, and reading it back does not give the first |
| Jobs.Admitted | pipeline.go:149-153 | the job sent for a line has the URL, no file, no summary, no channels and no failures |
| Jobs.Evicts | pipeline.go:197-199 | for a retryable error with a retry channel, eviction exactly at 3 failures; below 3 failures with a retry channel, eviction exactly for NoRetry; a job without a retry channel is always evicted |
| Jobs.NewRqError | pipeline.go:78-85 | the record carries a copy of the job with `nFails` one higher and everything else unchanged, plus the given type and message |
| Jobs.Decide | pipeline.go:196-212 | eviction if and only if the type is NoRetry, `nFails` ≥ 3 or there is no retry channel; otherwise the unchanged job goes back to its retry channel |
| Jobs.Rebind | pipeline.go:238-274 | a dequeued job retries on the channel it was read from and goes next to the following stage; nothing else changes |
| Jobs.RoutingAdvances | pipeline.go:238-274 | a job's next channel is one stage after its retry channel: Download → Summarize → Cleanup → Save |
| Jobs.InputsDistinct | pipeline.go:238-274 | different kinds of worker read from and forward to different channels |
| Jobs.RequeueTarget | pipeline.go:196-212 | a job that fails before its third failure goes back to the failing stage's own channel, never to Download from a later stage |
| Jobs.Failures | pipeline.go:196-212 | along a sequence of failures, handled errors = requeues + one if evicted, and a job still in the pipeline has had every failure handled |
| Jobs.RetryBound | pipeline.go:76-85 | a job with k < 3 failures is evicted at its (3-k)-th further failure, at any mix of stages, after 2-k requeues |
| Jobs.NoEvictionBeforeBound | pipeline.go:196-212 | fewer failures than that requeue the job every time and never evict it |
| Jobs.AlwaysFailingJob | pipeline.go:197-211 | a job whose stage always fails is handled 3 times, requeued twice, then evicted |
| Jobs.DownloadImage | pipeline.go:326-344 | the job is forwarded with the temporary file's path exactly when the fetch succeeds; otherwise one Download error is reported |
| Jobs.DownloadFiles | pipeline.go:327-340 | the temporary file exists afterwards unless it could not be created, even when the fetch fails |
| Jobs.SummarizeImage | pipeline.go:347-371 | the job is forwarded, with the tracker's summary of the decoded image, exactly when its file exists and decodes; otherwise one Summarize error is reported |
| Jobs.CleanupImage | pipeline.go:374-390 | a job without a file is forwarded unchanged; a failed removal is reported only when there is an error channel; a forwarded job has no file |
| Jobs.CleanupFiles | pipeline.go:381-387 | the file is gone afterwards when the removal succeeded, and a job without a file, a missing file or a denied removal leaves the files unchanged; no other file is touched |
| Jobs.InitError | pipeline.go:127-140 | no error if and only if all worker counts are positive and a source and an output are set; the worker check comes first, then the source, then the output |
| Jobs.CountStarted | pipeline.go:300-319 | `Run`'s `wg.Add(1)` calls number 1 + nDownload + nSummarize + (nCleanup-1) + 1, which is the token count when the configuration is valid |
| Jobs.StopTokens | pipeline.go:222-223 | with a valid configuration the count as written, nDownload+nSummarize+nCleanup+1, equals the goroutines `Run` starts |
| Jobs.Started | pipeline.go:300-319 | at least the handler and the calling goroutine; with a valid configuration one per worker plus the handler |
| Jobs.HandlerShutdownOversends | pipeline.go:204-205 | called from the error handler, `stopWorkers` sends one token more than there are goroutines left to receive it |
| Jobs.ShutdownTokensMatchListeners | pipeline.go:222-230 | the corrected token count equals the receivers for every caller |
| Steps.Inc | pipeline.go:147 | the counter increment is addition modulo 2^64 |
| Steps.Dec | pipeline.go:170 | adding `^uint64(0)` is subtraction of one modulo 2^64, wrapping 0 to 2^64-1 |
| Steps.Initial | pipeline.go:88-110 | a new pipeline has empty channels, counter 0, the flag unset and the latch open |
| Steps.Admit | pipeline.go:146-153 | the line's job is appended to the download channel, one more job is in flight and the counter is one higher modulo 2^64 |
| Steps.AdmitAll | pipeline.go:144-154 | n lines put n more jobs in flight; the flag and the latch are untouched |
| Steps.FinishReadingAsWritten | pipeline.go:155-157 | as written: the flag is set and nothing else changes, so no tokens are sent |
| Steps.Stop | pipeline.go:222-230 | corrected `stopWorkers`: the first call closes the latch and sends one token per goroutine that can receive one (one fewer when the handler calls); later calls change nothing |
| Steps.StopAsWritten | pipeline.go:222-230 | `stopWorkers` as written: the first call closes the latch for its caller and sends one token per goroutine `Run` started, whoever calls; once closed, a call changes nothing |
| Steps.StopAsWrittenOnce | pipeline.go:222-230 | as written, the first `stopWorkers` closes the latch and sends one token per goroutine `Run` started; a second call by anyone changes nothing |
| Steps.HandlerStopAsWrittenOversends | pipeline.go:204-205 | as written, the handler's `stopWorkers` sends one token more than there are receivers, and the handler does not exit |
| Steps.HandlerFinish | pipeline.go:200-207 | corrected end of an eviction: if it completes the pipeline and the latch is open, the handler closes it, sends a token to every other goroutine and exits; otherwise nothing changes |
| Steps.InitialGood | pipeline.go:88-110 | a new pipeline satisfies the invariant |
| Steps.CounterExact | pipeline.go:215-219 | below 2^64 jobs in flight the counter is exact, `isDone` holds exactly when the flag is set and the channels are empty, and a decrement never wraps |
| Steps.AdmitGood | pipeline.go:146-153 | admitting a line keeps the invariant and puts one more job in flight |
| Steps.AdmitAllGood | pipeline.go:143-154 | reading n lines keeps the invariant and appends their jobs, in order, to the download channel |
| Steps.FinishReadingGood | pipeline.go:155-157 | the corrected end of `readURLs` keeps the invariant and leaves no completion unnoticed |
| Steps.EmptySourceNeverStops | pipeline.go:155-157 | as written, an empty source leaves the pipeline done but never stopped |
| Steps.EmptySourceStops | pipeline.go:155-157 | with the check added, an empty source is stopped by the reader with the full token count |
| Steps.DrainedBeforeFlagNeverStops | pipeline.go:155-157 | as written, a pipeline whose every job was saved or evicted before the flag is set is done and never stopped; the corrected end stops it |
| Steps.DownloadGood | pipeline.go:237-241 | a download step keeps the invariant and the number of jobs in flight |
| Steps.SummarizeGood | pipeline.go:254-258 | a summarize step keeps the invariant and the number of jobs in flight |
| Steps.CleanupGood | pipeline.go:271-275 | a cleanup step keeps the invariant and the number of jobs in flight |
| Steps.DownloadStep | pipeline.go:233-247 | a download iteration neither adds nor removes a job and leaves the counter and the latch alone |
| Steps.SummarizeStep | pipeline.go:250-264 | a summarize iteration neither adds nor removes a job and leaves the counter and the latch alone |
| Steps.CleanupStep | pipeline.go:267-281 | a cleanup iteration neither adds nor removes a job and leaves the counter and the latch alone |
| Steps.WriteStep | pipeline.go:161-180 | a successful write removes one job from flight and appends exactly its row; a failed one removes none |
| Steps.HandleStep | pipeline.go:196-212 | handling an error removes one job from flight if and only if it evicts |
| Steps.WriteGood | pipeline.go:161-180 | writing a result keeps the invariant; a saved job leaves, a failed write stays as an error record |
| Steps.HandleGood | pipeline.go:196-212 | handling an error keeps the invariant; eviction removes one job, a requeue none |
| Steps.EvictGood | pipeline.go:197-207 | an eviction's decrement and completion check keep the invariant |
| Steps.StopOnce | pipeline.go:222-230 | a second `stopWorkers`, by anyone, sends nothing |
| Steps.TokensReleaseListeners | pipeline.go:222-230 | corrected program: once stopped with a valid configuration, the tokens sent equal the goroutines that can receive one, and every goroutine `Run` started either gets a token or is the handler that has exited |
| Steps.LastEvictionReleasesAll | pipeline.go:182-212 | corrected program: evicting the last job completes the pipeline, the handler stops it and exits, and the tokens plus the handler account for every goroutine `Run` started |
| Pipeline.RqPipeline.constructor | pipeline.go:88-110 | the new pipeline's fields are the initial state, which is valid |
| Pipeline.RqPipeline.WithSource | pipeline.go:112-115 | only the source changes |
| Pipeline.RqPipeline.WithOutput | pipeline.go:122-125 | only the output changes |
| Pipeline.RqPipeline.Init | pipeline.go:127-140 | returns `InitError` of the fields; nil if and only if all checks pass |
| Pipeline.RqPipeline.IsDone | pipeline.go:215-219 | true exactly when the flag is set and the counter is 0 |
| Pipeline.RqPipeline.StopWorkers | pipeline.go:222-230 | corrected: the latch closes once, and the send loop adds the caller's share of tokens (`Steps.Stop`) |
| Pipeline.RqPipeline.SendTokens | pipeline.go:225-229 | the send loop puts n tokens on `doneChn` and touches nothing else |
| Pipeline.RqPipeline.AdmitLine | pipeline.go:146-153 | one more admitted job, counted and queued for download, invariant kept |
| Pipeline.RqPipeline.SendJob | pipeline.go:149-153 | a send on a job channel appends the job to that channel only |
| Pipeline.RqPipeline.ReceiveJob | pipeline.go:236-237 | a receive takes the oldest job of that channel only |
| Pipeline.RqPipeline.ReportError | pipeline.go:329 | a send on `errorChn` appends the record to it only |
| Pipeline.RqPipeline.DeliverOutcome | pipeline.go:337-343 | a stage's result goes to the job's next channel, or its error record to `errorChn` (`Steps.Deliver`) |
| Pipeline.RqPipeline.TakeError | pipeline.go:186-187 | the handler takes the oldest error record and nothing else changes |
| Pipeline.RqPipeline.ReadURLs | pipeline.go:143-158 | the lines' jobs join the download channel in order, the flag is set, and a pipeline that is already done is stopped |
| Pipeline.RqPipeline.DownloadStage | pipeline.go:326-344 | the outcome is `DownloadImage` and the files become `DownloadFiles` |
| Pipeline.RqPipeline.SummarizeStage | pipeline.go:347-371 | the outcome is `SummarizeImage`, with the summary computed by `GetPrevalentColors` |
| Pipeline.RqPipeline.CleanupStage | pipeline.go:374-390 | the outcome is `CleanupImage` with an error channel, and the files become `CleanupFiles` |
| Pipeline.RqPipeline.WorkDownload | pipeline.go:233-247 | one iteration: receive, rebind, download, send on; the counters and invariant are kept |
| Pipeline.RqPipeline.WorkSummarize | pipeline.go:250-264 | one iteration: receive, rebind, summarize, send on; the counters and invariant are kept |
| Pipeline.RqPipeline.WorkCleanup | pipeline.go:267-281 | one iteration: receive, rebind, clean up, send on; the counters and invariant are kept |
| Pipeline.RqPipeline.WriteResult | pipeline.go:161-180 | a successful write saves one job; a failed write becomes a NoRetry error; the invariant is kept |
| Pipeline.RqPipeline.SaveRow | pipeline.go:163-178 | the row is appended, the counter decremented, and the pipeline and writer stopped if that completed it |
| Pipeline.RqPipeline.StopWriter | pipeline.go:174-177 | the writer stops the pipeline and returns |
| Pipeline.RqPipeline.HandleError | pipeline.go:196-212 | evicts or requeues the oldest error record as `Decide` says; the invariant is kept |
| Pipeline.RqPipeline.EvictJob | pipeline.go:197-207 | the file is removed, the counter decremented, and the pipeline stopped by the exiting handler if that completed it (`Steps.HandlerFinish`) |
| Pipeline.RqPipeline.FinishHandling | pipeline.go:204-206 | corrected: if the pipeline is complete and the latch open, stop it and leave the handler's loop |
| Pipeline.RqPipeline.Conservation | pipeline.go:215-219 | below 2^64 jobs in flight, `imageCount == admitted - saved - evicted`, and `isDone` holds exactly when reading is finished and every admitted job has been saved or evicted |

## Left out

- Concurrency is not modelled: goroutines, `select`, blocking channel sends, `sync.WaitGroup`,
  `sync.Mutex` and `atomic` (pipeline.go:182-193, 233-323). Steps run one at a time, and every
  channel is an unbounded FIFO sequence. Liveness, such as a blocked send or `wg.Wait` returning, is
  therefore stated as token arithmetic, not proved.
- Which goroutine takes which `doneChn` token, and the worker loops' exit, are not modelled. Only
  the number of tokens sent is kept.
- The handler's `select` between `errorChn` and `doneChn` is not modelled. `HandleError` takes the
  oldest error record.
- HTTP and timeouts are not modelled: `newClient`, `downloadToFile` and `WithClient`. A download's
  result is the parameter `Fetch`.
- Creating the temporary file is part of the `Fetch` parameter, and its name is given. `TempFile`
  naming is not modelled.
- The filesystem is an abstract set of temporary paths. Opening and decoding an image is the
  parameter `decoded`. A removal can fail for a reason outside the model, which is the parameter
  `denied`.
- The `draw.Draw` conversion to NRGBA (image.go:61-65) is not modelled. The model starts from the
  converted pixel buffer.
- `bufio.Scanner` line splitting and `strings.TrimSpace` (pipeline.go:144-146) are not modelled.
  `ReadURLs` takes the trimmed lines.
- Logging, `closeChns`, `RqQueue`, `doneFlag` and the unused `RqErrorSave` path are left out.
- `RqImage`, `NewRqImage` and `GetHexSummary` are not shown in the source. `RqImage` is the record
  {url, filePath, summary}. `WriteResult` takes the hex strings as a parameter.
- main.go (CLI arguments, `csv.Writer`, `processLine`) is not part of this model.
- The second declarations of `hexify` and `downloadToFile` in image.go are not modelled separately;
  one `Hexify` stands for both.
- The source and output writer are only "set or not set" for `Init`. The output's bytes are the
  string `output`, and a write either succeeds whole or fails, so partial writes are not modelled.
- `os.Remove`'s error on eviction is ignored, as in the source. The path is simply no longer among
  the files.
- Prevalent.Promote: its own contract states only that three slots remain. That a swap neither
  adds nor removes a colour is `Prevalent.PromoteTracked`. It is a lemma because a contract on the
  function makes every proof that unfolds it too costly.
- Prevalent.Insert: its own contract states only where the new colour lands. What is kept is
  `Prevalent.InsertFreeTracked` and `Prevalent.InsertFullTracked`, for the same reason.
- Prevalent.StepMost: its own contract states only the three slots. What they hold is
  `Prevalent.StepTracked`, for the same reason.
- Prevalent.Step: its own contract states the count of the pixel's colour. The other counts are
  `Prevalent.RunCounts` and the slots `Prevalent.StepTracked`, for the same reason.
- Prevalent.Run: its own contract states only the three slots. The counts are
  `Prevalent.RunCounts` and the slots `Prevalent.RunTracked`, for the same reason.
- Prevalent.Summary: its own contract states only the three slots. What they hold is
  `Prevalent.SummaryTracked`, for the same reason.
- Prevalent.GetPrevalentColors: the `uint64` counts are unbounded integers, because no image has
  2^64 pixels.
- Prevalent.GetPrevalentColors: `getPrevalentColors` never returns an error, so the summarize
  stage's error branch for it is left out.
- Pipeline.RqPipeline.CleanupStage: the pool's error channel is never nil, so only that case is
  performed in place. The nil case is stated in `Jobs.CleanupImage`.
- Pipeline.RqPipeline.Init: `Init` returns the same pipeline in every case, so only the error is
  modelled.
- Pipeline.RqPipeline.ReadURLs: it models the corrected end of `readURLs`, which checks completion
  after setting the flag. The end as written is `Steps.FinishReadingAsWritten` (see Findings).
- Steps.Stop: it sends the corrected number of tokens, one fewer than pipeline.go:223 when the
  handler calls. The count as written is `Steps.StopAsWritten` and `Jobs.StopTokens` (see Findings).
- Steps.TokensReleaseListeners: it holds for the corrected program only. As written, the handler's
  call sends one token too many and the handler never leaves its loop
  (`Steps.HandlerStopAsWrittenOversends`).
- Steps.HandlerFinish: the handler leaving its loop after it stops the pipeline is the correction.
  The source has no such exit.
- Pipeline.RqPipeline.EvictJob: it performs the corrected end (`Steps.HandlerFinish`), not the
  call to `stopWorkers` as written.
- Pipeline.RqPipeline.FinishHandling: it makes two corrections to pipeline.go:204-206. It sends
  `ShutdownTokens(cfg, ErrorHandler)` tokens, one fewer than pipeline.go:223 sends, and it sets
  `handlerExited`, an exit from the handler's loop that the source does not have.
- Pipeline.RqPipeline.StopWorkers: it sends the corrected number of tokens for its caller. The
  count as written is `Jobs.StopTokens` (see Findings).
- The message for a missing output keeps the source's text "Use method WithSource to set it."
  verbatim.

## Findings

| source | as written | input that shows it | evidently intended | confidence | as-written member | corrected member |
|---|---|---|---|---|---|---|
| pipeline.go:155-157 | `readURLs` sets `readURLsDone` without checking `isDone`; completion is checked only after a decrement (pipeline.go:174, 204) | an empty source; or any source whose last job is saved or evicted before the flag is set (`Steps.DrainedBeforeFlagNeverStops`): the pipeline is done, no decrement follows, and `stopWorkers` is never called | after setting the flag, stop the workers if the pipeline is already done | high for the empty source; not executed | Steps.EmptySourceNeverStops | Steps.EmptySourceStops |
| pipeline.go:204-205 | when `handleError` completes the pipeline it calls `stopWorkers`, which sends nDownload+nSummarize+nCleanup+1 tokens on the unbuffered `doneChn` (pipeline.go:99, 223); the +1 is for the error handler, which is the sender. The last send finds no receiver, the handler never reaches its deferred `wg.Done` (pipeline.go:183), and `wg.Wait` (pipeline.go:321) never returns | any run whose last job is evicted, e.g. one URL whose download fails three times | the handler sends one token per other goroutine and then leaves its loop itself, so every goroutine `Run` started either receives a token or has exited | high; not executed | Steps.HandlerStopAsWrittenOversends | Steps.LastEvictionReleasesAll |
