/**
  * The pipeline of pipeline.go as a sequential state machine over values: the
  * five channels are FIFO sequences, and each step is one thing one goroutine
  * does to them (admit a line, run one stage on one job, write one result,
  * handle one error). The class in pipeline.dfy performs these steps in place;
  * this module states what each step yields and proves the invariants they keep:
  * the completion counter, the routing of jobs between stages, the one-shot
  * shutdown latch.
  */
module Steps {
  import opened Wrappers
  import opened Jobs
  import Prevalent
  import Rows

  /** 2^64: `imageCount` is a `uint64`. */
  const U64: int := 0x1_0000_0000_0000_0000

  /** `atomic.AddUint64(&imageCount, 1)`. */
  function Inc(n: int): (r: int)
    requires 0 <= n < U64
    ensures 0 <= r < U64 && r == (n + 1) % U64
  {
    if n == U64 - 1 then 0 else n + 1
  }

  /** `atomic.AddUint64(&imageCount, ^uint64(0))`: adding 2^64 - 1, that is subtracting one modulo 2^64. */
  function Dec(n: int): (r: int)
    requires 0 <= n < U64
    ensures 0 <= r < U64 && r == (n + U64 - 1) % U64
    ensures n == 0 ==> r == U64 - 1
  {
    if n == 0 then U64 - 1 else n - 1
  }

  lemma IncMod(n: nat)
    ensures Inc(n % U64) == (n + 1) % U64
  {
    var q := n / U64;
    assert n == q * U64 + n % U64;
    assert n + 1 == q * U64 + (n % U64 + 1);
    if n % U64 == U64 - 1 {
      assert n + 1 == (q + 1) * U64;
    }
  }

  lemma DecMod(n: nat)
    requires n >= 1
    ensures Dec(n % U64) == (n - 1) % U64
  {
    var q := n / U64;
    assert n == q * U64 + n % U64;
    if n % U64 == 0 {
      assert q >= 1;
      assert n - 1 == (q - 1) * U64 + (U64 - 1);
    } else {
      assert n - 1 == q * U64 + (n % U64 - 1);
    }
  }

  // ---------------------------------------------------------------------
  // The state
  // ---------------------------------------------------------------------

  /**
    * The fields of `RqPipeline` and its `RqPool` that the steps read or write.
    * `stoppedBy` is the `stopOnce` latch (who ran it), `tokens` the values sent
    * on `doneChn`, `files` the temporary files on disk, `output` what was
    * written to the output, `writerExited` whether `writeResults` returned,
    * `handlerExited` whether `handleErrors` left its loop without a token
    * (only in the corrected program, see `HandlerFinish`).
    */
  datatype State = State(
    cfg: PipeConfig,
    hasSource: bool,
    hasOutput: bool,
    downloadChn: seq<RqJob>,
    summarizeChn: seq<RqJob>,
    cleanupChn: seq<RqJob>,
    saveChn: seq<RqJob>,
    errorChn: seq<RqError>,
    imageCount: int,
    readURLsDone: bool,
    stoppedBy: Option<Caller>,
    tokens: nat,
    files: set<string>,
    output: string,
    writerExited: bool,
    handlerExited: bool)

  /** `NewPipeline`: empty channels, counter 0, nothing read, latch open. */
  function Initial(cfg: PipeConfig): (s: State)
    ensures s.cfg == cfg && InFlight(s) == 0 && s.imageCount == 0 && !s.readURLsDone && s.stoppedBy.None?
  {
    State(cfg, false, false, [], [], [], [], [], 0, false, None, 0, {}, "", false, false)
  }

  function Queue(s: State, ch: Chan): seq<RqJob> {
    match ch
    case DownloadChn => s.downloadChn
    case SummarizeChn => s.summarizeChn
    case CleanupChn => s.cleanupChn
    case SaveChn => s.saveChn
  }

  /** Jobs and error records in the channels: everything admitted and not yet saved or evicted. */
  function InFlight(s: State): nat {
    |s.downloadChn| + |s.summarizeChn| + |s.cleanupChn| + |s.saveChn| + |s.errorChn|
  }

  /** A send on one of the job channels. */
  function Send(s: State, ch: Chan, j: RqJob): (r: State)
    ensures Queue(r, ch) == Queue(s, ch) + [j] && r.errorChn == s.errorChn
    ensures forall c :: c != ch ==> Queue(r, c) == Queue(s, c)
    ensures InFlight(r) == InFlight(s) + 1
  {
    match ch
    case DownloadChn => s.(downloadChn := s.downloadChn + [j])
    case SummarizeChn => s.(summarizeChn := s.summarizeChn + [j])
    case CleanupChn => s.(cleanupChn := s.cleanupChn + [j])
    case SaveChn => s.(saveChn := s.saveChn + [j])
  }

  /** A receive from one of the job channels. */
  function Receive(s: State, ch: Chan): (r: State)
    requires |Queue(s, ch)| > 0
    ensures Queue(r, ch) == Queue(s, ch)[1..] && r.errorChn == s.errorChn
    ensures forall c :: c != ch ==> Queue(r, c) == Queue(s, c)
    ensures InFlight(r) == InFlight(s) - 1
  {
    match ch
    case DownloadChn => s.(downloadChn := s.downloadChn[1..])
    case SummarizeChn => s.(summarizeChn := s.summarizeChn[1..])
    case CleanupChn => s.(cleanupChn := s.cleanupChn[1..])
    case SaveChn => s.(saveChn := s.saveChn[1..])
  }

  /** `isDone`. */
  predicate Done(s: State) {
    s.readURLsDone && s.imageCount == 0
  }

  /**
    * `stopWorkers` with `stopOnce`, corrected: the first call closes the latch
    * and sends one token per goroutine that can still receive one (the error
    * handler does not receive its own); later calls do nothing.
    */
  function Stop(s: State, caller: Caller): (r: State)
    ensures r.stoppedBy.Some?
    ensures s.stoppedBy.Some? ==> r == s
    ensures s.stoppedBy.None? ==> r == s.(stoppedBy := Some(caller), tokens := s.tokens + Max0(ShutdownTokens(s.cfg, caller)))
  {
    if s.stoppedBy.Some? then s
    else s.(stoppedBy := Some(caller), tokens := s.tokens + Max0(ShutdownTokens(s.cfg, caller)))
  }

  /** `stopWorkers` as written: nDownload + nSummarize + nCleanup + 1 tokens, whoever calls. */
  function StopAsWritten(s: State, caller: Caller): (r: State)
    ensures r.stoppedBy.Some?
    ensures s.stoppedBy.Some? ==> r == s
    ensures s.stoppedBy.None? ==> r.stoppedBy == Some(caller)
    ensures s.stoppedBy.None? && WorkersPositive(s.cfg) ==> r.tokens == s.tokens + Started(s.cfg)
  {
    if s.stoppedBy.Some? then s
    else s.(stoppedBy := Some(caller), tokens := s.tokens + Max0(StopTokens(s.cfg)))
  }

  /** `if pipe.isDone() { pipe.pool.stopWorkers() }`. */
  function StopIfDone(s: State, caller: Caller): State {
    if Done(s) then Stop(s, caller) else s
  }

  /**
    * The end of an eviction in `handleError`, corrected: when the eviction
    * completes the pipeline and the latch is still open, the handler stops
    * the other goroutines and then leaves its own loop (so its deferred
    * `wg.Done` runs) instead of waiting for a token it cannot receive. When
    * the latch is already closed its token is on the way and it waits for it.
    */
  function HandlerFinish(s: State): (r: State)
    ensures Done(s) && s.stoppedBy.None? ==>
              && r.stoppedBy == Some(ErrorHandler) && r.handlerExited
              && r.tokens == s.tokens + Max0(ShutdownTokens(s.cfg, ErrorHandler))
    ensures !(Done(s) && s.stoppedBy.None?) ==> r == s
  {
    if Done(s) && s.stoppedBy.None? then Stop(s, ErrorHandler).(handlerExited := true) else s
  }

  // ---------------------------------------------------------------------
  // The steps
  // ---------------------------------------------------------------------

  /** One iteration of the `readURLs` loop: count the job, then send it to the download channel. */
  function Admit(s: State, url: string): (r: State)
    requires 0 <= s.imageCount < U64
    ensures r.downloadChn == s.downloadChn + [Admitted(url)] && InFlight(r) == InFlight(s) + 1
    ensures r.imageCount == (s.imageCount + 1) % U64
    ensures r.readURLsDone == s.readURLsDone && r.stoppedBy == s.stoppedBy && r.tokens == s.tokens
  {
    Send(s.(imageCount := Inc(s.imageCount)), DownloadChn, Admitted(url))
  }

  /** The whole `readURLs` loop: the lines admitted in order. */
  function AdmitAll(s: State, lines: seq<string>): (r: State)
    requires 0 <= s.imageCount < U64
    ensures 0 <= r.imageCount < U64
    ensures InFlight(r) == InFlight(s) + |lines|
    ensures r.readURLsDone == s.readURLsDone && r.stoppedBy == s.stoppedBy && r.tokens == s.tokens
    decreases |lines|
  {
    if lines == [] then s
    else Admit(AdmitAll(s, lines[..|lines| - 1]), lines[|lines| - 1])
  }

  /** The end of `readURLs` as written: the flag is set, completion is not checked. */
  function FinishReadingAsWritten(s: State): (r: State)
    ensures r.readURLsDone && r.stoppedBy == s.stoppedBy && r.tokens == s.tokens
    ensures InFlight(r) == InFlight(s) && r.imageCount == s.imageCount
  {
    s.(readURLsDone := true)
  }

  /** The end of `readURLs`, corrected: set the flag, then stop if everything is already done. */
  function FinishReading(s: State): State {
    StopIfDone(s.(readURLsDone := true), Reader)
  }

  /** Where a stage's outcome goes: the job to its next channel, an error to the error channel. */
  function Deliver(s: State, o: Outcome): (r: State)
    requires o.Forwarded? ==> o.job.nextChn.Some?
    ensures InFlight(r) == InFlight(s) + 1
  {
    match o
    case Forwarded(k) => Send(s, k.nextChn.value, k)
    case Reported(e) => s.(errorChn := s.errorChn + [e])
  }

  /** One iteration of `workDownload`: receive, rebind, `downloadImage`. */
  function DownloadStep(s: State, fetch: Fetch): (r: State)
    requires |s.downloadChn| > 0
    ensures InFlight(r) == InFlight(s) && r.imageCount == s.imageCount && r.stoppedBy == s.stoppedBy
  {
    var j := Rebind(s.downloadChn[0], DownloadWorker);
    Deliver(Receive(s, DownloadChn).(files := DownloadFiles(s.files, fetch)), DownloadImage(j, fetch))
  }

  /** One iteration of `workSummarize`: receive, rebind, `summarizeImage`. */
  function SummarizeStep(s: State, decoded: Option<Prevalent.Image>, msg: string): (r: State)
    requires |s.summarizeChn| > 0
    requires decoded.Some? ==> decoded.value.WellFormed()
    ensures InFlight(r) == InFlight(s) && r.imageCount == s.imageCount && r.stoppedBy == s.stoppedBy
  {
    var j := Rebind(s.summarizeChn[0], SummarizeWorker);
    Deliver(Receive(s, SummarizeChn), SummarizeImage(j, s.files, decoded, msg))
  }

  /** One iteration of `workCleanup`: receive, rebind, `cleanupImage` with the pool's error channel. */
  function CleanupStep(s: State, denied: bool, msg: string): (r: State)
    requires |s.cleanupChn| > 0
    ensures InFlight(r) == InFlight(s) && r.imageCount == s.imageCount && r.stoppedBy == s.stoppedBy
  {
    var j := Rebind(s.cleanupChn[0], CleanupWorker);
    Deliver(Receive(s, CleanupChn).(files := CleanupFiles(j, s.files, denied)), CleanupImage(j, s.files, denied, true, msg))
  }

  /**
    * One iteration of `writeResults`: a failed write becomes a no-retry error;
    * a successful one appends the row, decrements the counter and stops the
    * pipeline, and the writer, if that completed it.
    */
  function WriteStep(s: State, hex: seq<string>, writeErr: Option<string>): (r: State)
    requires |s.saveChn| > 0 && 0 <= s.imageCount < U64
    ensures InFlight(r) == InFlight(s) - (if writeErr.None? then 1 else 0)
    ensures writeErr.None? ==> r.output == s.output + Rows.Row(s.saveChn[0].image.url, hex)
  {
    var j := s.saveChn[0];
    var s1 := Receive(s, SaveChn);
    match writeErr
    case Some(msg) => s1.(errorChn := s1.errorChn + [NewRqError(j, ErrNoRetry, msg)])
    case None =>
      var s2 := s1.(output := s1.output + Rows.Row(j.image.url, hex), imageCount := Dec(s1.imageCount));
      if Done(s2) then Stop(s2, Writer).(writerExited := true) else s2
  }

  /** `handleError` on the oldest error record. */
  function HandleStep(s: State): (r: State)
    requires |s.errorChn| > 0 && 0 <= s.imageCount < U64
    ensures InFlight(r) == InFlight(s) - (if Evicts(s.errorChn[0]) then 1 else 0)
  {
    var e := s.errorChn[0];
    var s1 := s.(errorChn := s.errorChn[1..]);
    match Decide(e)
    case Evict =>
      HandlerFinish(s1.(files := s1.files - {e.job.image.filePath}, imageCount := Dec(s1.imageCount)))
    case Requeue(ch, j) => Send(s1, ch, j)
  }

  // ---------------------------------------------------------------------
  // Invariants
  // ---------------------------------------------------------------------

  /** The jobs a channel can hold, given who sends to it. */
  predicate Queued(j: RqJob, ch: Chan) {
    && j.nFails < MAX_FAILS
    && match ch
       case DownloadChn => (j.retryChn.None? && j.nextChn.None? && j.nFails == 0) || Bound(j, DownloadWorker)
       case SummarizeChn => Bound(j, DownloadWorker) || Bound(j, SummarizeWorker)
       case CleanupChn => (Bound(j, SummarizeWorker) || Bound(j, CleanupWorker)) && |j.image.summary| == 3
       case SaveChn => Bound(j, CleanupWorker) && |j.image.summary| == 3 && j.image.filePath == ""
  }

  /** The error records the stages and the writer send. */
  predicate Reportable(e: RqError) {
    && 1 <= e.job.nFails <= MAX_FAILS
    && match e.errorType
       case ErrDownload => Bound(e.job, DownloadWorker)
       case ErrSummarize => Bound(e.job, SummarizeWorker)
       case ErrCleanup => Bound(e.job, CleanupWorker) && |e.job.image.summary| == 3
       case ErrNoRetry => Bound(e.job, CleanupWorker)
       case ErrSave => false
  }

  predicate AllQueued(q: seq<RqJob>, ch: Chan) {
    forall i :: 0 <= i < |q| ==> Queued(q[i], ch)
  }

  predicate AllReportable(q: seq<RqError>) {
    forall i :: 0 <= i < |q| ==> Reportable(q[i])
  }

  predicate Routed(s: State) {
    && AllQueued(s.downloadChn, DownloadChn)
    && AllQueued(s.summarizeChn, SummarizeChn)
    && AllQueued(s.cleanupChn, CleanupChn)
    && AllQueued(s.saveChn, SaveChn)
    && AllReportable(s.errorChn)
  }

  /**
    * The latch: no tokens before it closes, exactly the caller's share after;
    * the handler has left its loop exactly when it closed the latch.
    */
  predicate Latched(s: State) {
    && s.tokens == (if s.stoppedBy.Some? then Max0(ShutdownTokens(s.cfg, s.stoppedBy.value)) else 0)
    && (s.writerExited ==> s.stoppedBy.Some?)
    && (s.handlerExited <==> s.stoppedBy == Some(ErrorHandler))
  }

  /** The invariant every step keeps. */
  predicate Good(s: State) {
    && 0 <= s.imageCount < U64
    && s.imageCount == InFlight(s) % U64
    && Routed(s)
    && Latched(s)
  }

  /** Completion is never missed: whenever `isDone` holds, the latch has been closed. */
  predicate NoMissedCompletion(s: State) {
    Done(s) ==> s.stoppedBy.Some?
  }

  lemma InitialGood(cfg: PipeConfig)
    ensures Good(Initial(cfg)) && NoMissedCompletion(Initial(cfg))
  {
  }

  /** While fewer than 2^64 jobs are in flight the counter is exact, and done means drained. */
  lemma CounterExact(s: State)
    requires Good(s) && InFlight(s) < U64
    ensures s.imageCount == InFlight(s)
    ensures Done(s) <==> s.readURLsDone && InFlight(s) == 0
    ensures InFlight(s) > 0 ==> Dec(s.imageCount) == s.imageCount - 1
  {
  }

  lemma AllQueuedSend(q: seq<RqJob>, ch: Chan, j: RqJob)
    requires AllQueued(q, ch) && Queued(j, ch)
    ensures AllQueued(q + [j], ch)
  {
    assert forall i :: 0 <= i < |q| ==> (q + [j])[i] == q[i];
  }

  lemma SendRouted(s: State, ch: Chan, j: RqJob)
    requires Routed(s) && Queued(j, ch)
    ensures Routed(Send(s, ch, j))
  {
    AllQueuedSend(Queue(s, ch), ch, j);
  }

  lemma ReceiveRouted(s: State, ch: Chan)
    requires Routed(s) && |Queue(s, ch)| > 0
    ensures Routed(Receive(s, ch)) && Queued(Queue(s, ch)[0], ch)
  {
    var q := Queue(s, ch);
    assert forall i :: 0 <= i < |q| - 1 ==> q[1..][i] == q[i + 1];
  }

  lemma ReportRouted(s: State, e: RqError)
    requires Routed(s) && Reportable(e)
    ensures Routed(s.(errorChn := s.errorChn + [e]))
  {
    assert forall i :: 0 <= i < |s.errorChn| ==> (s.errorChn + [e])[i] == s.errorChn[i];
  }

  /** Admitting a line: one more job in flight, one more counted. */
  lemma AdmitGood(s: State, url: string)
    requires Good(s) && !s.readURLsDone
    ensures Good(Admit(s, url)) && NoMissedCompletion(Admit(s, url))
    ensures InFlight(Admit(s, url)) == InFlight(s) + 1
  {
    IncMod(InFlight(s));
    SendRouted(s.(imageCount := Inc(s.imageCount)), DownloadChn, Admitted(url));
  }

  /** Reading n lines puts their jobs, in order, at the end of the download channel. */
  lemma {:induction false} AdmitAllGood(s: State, lines: seq<string>)
    requires Good(s) && !s.readURLsDone
    ensures var r := AdmitAll(s, lines);
            && Good(r) && NoMissedCompletion(r) && !r.readURLsDone
            && InFlight(r) == InFlight(s) + |lines|
            && r.downloadChn == s.downloadChn + seq(|lines|, i requires 0 <= i < |lines| => Admitted(lines[i]))
    decreases |lines|
  {
    if lines != [] {
      var front := lines[..|lines| - 1];
      AdmitAllGood(s, front);
      AdmitGood(AdmitAll(s, front), lines[|lines| - 1]);
    }
  }

  lemma FinishReadingGood(s: State)
    requires Good(s)
    ensures Good(FinishReading(s)) && NoMissedCompletion(FinishReading(s))
    ensures InFlight(FinishReading(s)) == InFlight(s)
  {
  }

  /**
    * With nothing admitted, `readURLs` as written leaves the pipeline done and
    * never stopped; every other step needs a job or an error in a channel, so
    * `stopWorkers` is never called and `Run` never returns.
    */
  lemma EmptySourceNeverStops(cfg: PipeConfig)
    ensures var s := FinishReadingAsWritten(Initial(cfg));
            Done(s) && s.stoppedBy.None? && InFlight(s) == 0 && !NoMissedCompletion(s)
  {
  }

  /**
    * The same holds whenever every admitted job has already been saved or
    * evicted when the flag is set: the writer and the handler saw
    * `readURLsDone` unset at their last decrement, and nothing decrements again.
    */
  lemma DrainedBeforeFlagNeverStops(s: State)
    requires Good(s) && !s.readURLsDone && s.stoppedBy.None? && InFlight(s) == 0
    ensures var r := FinishReadingAsWritten(s);
            Done(r) && r.stoppedBy.None? && InFlight(r) == 0 && !NoMissedCompletion(r)
    ensures var r := FinishReading(s);
            Done(r) && r.stoppedBy == Some(Reader) && NoMissedCompletion(r)
  {
  }

  /** The corrected end of `readURLs` stops an empty pipeline at once. */
  lemma EmptySourceStops(cfg: PipeConfig)
    ensures var s := FinishReading(Initial(cfg));
            Done(s) && s.stoppedBy == Some(Reader) && s.tokens == Max0(StopTokens(cfg))
  {
  }

  /** A stage's delivery: what left one channel enters the next, or the error channel; the rest is untouched. */
  lemma DeliverGood(s: State, s1: State, o: Outcome)
    requires Good(s) && NoMissedCompletion(s) && Routed(s1)
    requires InFlight(s1) + 1 == InFlight(s) && s1.imageCount == s.imageCount && s1.readURLsDone == s.readURLsDone
    requires s1.cfg == s.cfg && s1.stoppedBy == s.stoppedBy && s1.tokens == s.tokens
    requires s1.writerExited == s.writerExited && s1.handlerExited == s.handlerExited
    requires o.Forwarded? ==> o.job.nextChn.Some? && Queued(o.job, o.job.nextChn.value)
    requires o.Reported? ==> Reportable(o.err)
    ensures Good(Deliver(s1, o)) && NoMissedCompletion(Deliver(s1, o)) && InFlight(Deliver(s1, o)) == InFlight(s)
  {
    match o {
      case Forwarded(k) => SendRouted(s1, k.nextChn.value, k);
      case Reported(e) => ReportRouted(s1, e);
    }
  }

  /** A stage step routes the job onward or reports one error; the counter does not move. */
  lemma DownloadGood(s: State, fetch: Fetch)
    requires Good(s) && NoMissedCompletion(s) && |s.downloadChn| > 0
    ensures Good(DownloadStep(s, fetch)) && NoMissedCompletion(DownloadStep(s, fetch))
    ensures InFlight(DownloadStep(s, fetch)) == InFlight(s)
  {
    var j := Rebind(s.downloadChn[0], DownloadWorker);
    ReceiveRouted(s, DownloadChn);
    var s1 := Receive(s, DownloadChn).(files := DownloadFiles(s.files, fetch));
    DeliverGood(s, s1, DownloadImage(j, fetch));
  }

  lemma SummarizeGood(s: State, decoded: Option<Prevalent.Image>, msg: string)
    requires Good(s) && NoMissedCompletion(s) && |s.summarizeChn| > 0
    requires decoded.Some? ==> decoded.value.WellFormed()
    ensures Good(SummarizeStep(s, decoded, msg)) && NoMissedCompletion(SummarizeStep(s, decoded, msg))
    ensures InFlight(SummarizeStep(s, decoded, msg)) == InFlight(s)
  {
    var j := Rebind(s.summarizeChn[0], SummarizeWorker);
    ReceiveRouted(s, SummarizeChn);
    var s1 := Receive(s, SummarizeChn);
    DeliverGood(s, s1, SummarizeImage(j, s.files, decoded, msg));
  }

  lemma CleanupGood(s: State, denied: bool, msg: string)
    requires Good(s) && NoMissedCompletion(s) && |s.cleanupChn| > 0
    ensures Good(CleanupStep(s, denied, msg)) && NoMissedCompletion(CleanupStep(s, denied, msg))
    ensures InFlight(CleanupStep(s, denied, msg)) == InFlight(s)
  {
    var j := Rebind(s.cleanupChn[0], CleanupWorker);
    ReceiveRouted(s, CleanupChn);
    var s1 := Receive(s, CleanupChn).(files := CleanupFiles(j, s.files, denied));
    DeliverGood(s, s1, CleanupImage(j, s.files, denied, true, msg));
  }

  /** Writing a result: a saved job leaves the pipeline; a failed write turns into an error record. */
  lemma WriteGood(s: State, hex: seq<string>, writeErr: Option<string>)
    requires Good(s) && NoMissedCompletion(s) && |s.saveChn| > 0
    ensures Good(WriteStep(s, hex, writeErr)) && NoMissedCompletion(WriteStep(s, hex, writeErr))
    ensures InFlight(WriteStep(s, hex, writeErr)) == InFlight(s) - (if writeErr.None? then 1 else 0)
  {
    var j := s.saveChn[0];
    ReceiveRouted(s, SaveChn);
    var s1 := Receive(s, SaveChn);
    if writeErr.Some? {
      ReportRouted(s1, NewRqError(j, ErrNoRetry, writeErr.value));
    } else {
      DecMod(InFlight(s));
    }
  }

  /** Handling an error: eviction takes the job out; a requeue puts it back on its own stage's channel. */
  lemma HandleGood(s: State)
    requires Good(s) && NoMissedCompletion(s) && |s.errorChn| > 0
    ensures Good(HandleStep(s)) && NoMissedCompletion(HandleStep(s))
    ensures InFlight(HandleStep(s)) == InFlight(s) - (if Evicts(s.errorChn[0]) then 1 else 0)
  {
    var e := s.errorChn[0];
    var s1 := s.(errorChn := s.errorChn[1..]);
    TakeErrorRouted(s);
    match Decide(e)
    case Evict => EvictGood(s1, e.job.image.filePath);
    case Requeue(ch, j) =>
      assert Queued(j, ch);
      SendRouted(s1, ch, j);
  }

  /** `HandleStep` by cases: evict and maybe finish, or requeue. */
  lemma HandleStepCases(s: State)
    requires |s.errorChn| > 0 && 0 <= s.imageCount < U64
    ensures var e := s.errorChn[0];
            var s1 := s.(errorChn := s.errorChn[1..]);
            HandleStep(s) == if Evicts(e)
                             then HandlerFinish(s1.(files := s1.files - {e.job.image.filePath}, imageCount := Dec(s1.imageCount)))
                             else Send(s1, e.job.retryChn.value, e.job)
  {
  }

  lemma TakeErrorRouted(s: State)
    requires Routed(s) && |s.errorChn| > 0
    ensures Routed(s.(errorChn := s.errorChn[1..])) && Reportable(s.errorChn[0])
  {
    assert forall i :: 0 <= i < |s.errorChn| - 1 ==> s.errorChn[1..][i] == s.errorChn[i + 1];
  }

  /** An eviction counts out the job that has just left the error channel. */
  lemma EvictGood(s: State, path: string)
    requires Routed(s) && Latched(s) && 0 <= s.imageCount < U64
    requires s.imageCount == (InFlight(s) + 1) % U64
    ensures var r := HandlerFinish(s.(files := s.files - {path}, imageCount := Dec(s.imageCount)));
            Good(r) && NoMissedCompletion(r) && InFlight(r) == InFlight(s)
  {
    DecMod(InFlight(s) + 1);
  }

  /** The latch closes once: a second `stopWorkers` sends nothing, whoever calls it. */
  lemma StopOnce(s: State, first: Caller, second: Caller)
    ensures Stop(Stop(s, first), second) == Stop(s, first)
    ensures s.stoppedBy.None? ==> Stop(s, first).tokens == s.tokens + Max0(ShutdownTokens(s.cfg, first))
  {
  }

  /** The latch as written closes once too: a second call sends nothing, whoever makes it. */
  lemma StopAsWrittenOnce(s: State, first: Caller, second: Caller)
    ensures StopAsWritten(StopAsWritten(s, first), second) == StopAsWritten(s, first)
    ensures s.stoppedBy.None? && WorkersPositive(s.cfg) ==>
      StopAsWritten(s, first).tokens == s.tokens + Started(s.cfg)
  {
  }

  /**
    * `stopWorkers` as written, called by the handler on the last eviction:
    * it sends one token more than the goroutines that can receive one, and
    * the handler, blocked in that send, never leaves its loop.
    */
  lemma HandlerStopAsWrittenOversends(s: State)
    requires Good(s) && WorkersPositive(s.cfg) && s.stoppedBy.None?
    ensures var r := StopAsWritten(s, ErrorHandler);
            r.tokens == Listeners(s.cfg, ErrorHandler) + 1 && !r.handlerExited
  {
  }

  /**
    * Corrected: once stopped with a valid configuration, every goroutine `Run`
    * started either receives one of the tokens sent or is the handler that
    * has already left its loop, so `wg.Wait` can return.
    */
  lemma TokensReleaseListeners(s: State)
    requires Good(s) && WorkersPositive(s.cfg) && s.stoppedBy.Some?
    ensures s.tokens == Listeners(s.cfg, s.stoppedBy.value)
    ensures s.tokens + (if s.handlerExited then 1 else 0) == Started(s.cfg)
  {
    ShutdownTokensMatchListeners(s.cfg, s.stoppedBy.value);
  }

  /**
    * The last job evicted, in the corrected program: the handler stops the
    * pipeline, sends a token to every other goroutine `Run` started, and exits.
    */
  lemma LastEvictionReleasesAll(s: State)
    requires Good(s) && NoMissedCompletion(s) && WorkersPositive(s.cfg)
    requires |s.errorChn| > 0 && Evicts(s.errorChn[0])
    requires s.readURLsDone && s.stoppedBy.None? && InFlight(s) == 1
    ensures var r := HandleStep(s);
            && Good(r) && NoMissedCompletion(r) && Done(r) && InFlight(r) == 0
            && r.stoppedBy == Some(ErrorHandler) && r.handlerExited
            && r.tokens + 1 == Started(s.cfg)
  {
    HandleGood(s);
    TokensReleaseListeners(HandleStep(s));
  }
}
