/**
  * The job records of pipeline.go and the rules applied to them by value:
  * error construction (`NewRqError`), the eviction rule of `handleError`, the
  * routing a worker gives a job it dequeues, the per-stage contracts of
  * `downloadImage`, `summarizeImage` and `cleanupImage`, the checks of `Init`
  * and the arithmetic of `stopWorkers` and `Run`.
  */
module Jobs {
  import opened Wrappers
  import opened Colors
  import Prevalent

  /** `RqJobMaxFails`: the failure that makes a job's count reach this evicts it. */
  const MAX_FAILS: nat := 3

  // ---------------------------------------------------------------------
  // Channels, workers, error types
  // ---------------------------------------------------------------------

  /** The four job channels of the pool, in pipeline order. */
  datatype Chan = DownloadChn | SummarizeChn | CleanupChn | SaveChn

  /** Index of a channel in the order Download, Summarize, Cleanup, Save. */
  function Position(ch: Chan): (n: nat)
    ensures n < 4
  {
    match ch
    case DownloadChn => 0
    case SummarizeChn => 1
    case CleanupChn => 2
    case SaveChn => 3
  }

  /** The three kinds of worker goroutine. */
  datatype Worker = DownloadWorker | SummarizeWorker | CleanupWorker

  /** The channel a worker of this kind reads jobs from; it becomes the job's `retryChn`. */
  function Input(w: Worker): Chan {
    match w
    case DownloadWorker => DownloadChn
    case SummarizeWorker => SummarizeChn
    case CleanupWorker => CleanupChn
  }

  /** The channel a worker of this kind sets as the job's `nextChn`. */
  function Output(w: Worker): Chan {
    match w
    case DownloadWorker => SummarizeChn
    case SummarizeWorker => CleanupChn
    case CleanupWorker => SaveChn
  }

  /** `RqErrorDownload` … `RqErrorNoRetry`, declared with `iota`. */
  datatype ErrorType = ErrDownload | ErrSummarize | ErrSave | ErrCleanup | ErrNoRetry

  /** The error type a stage reports when it fails. */
  function StageError(w: Worker): ErrorType {
    match w
    case DownloadWorker => ErrDownload
    case SummarizeWorker => ErrSummarize
    case CleanupWorker => ErrCleanup
  }

  // ---------------------------------------------------------------------
  // Records
  // ---------------------------------------------------------------------

  /** An image being processed: its URL, the local file it was saved to, its three colours. */
  datatype RqImage = RqImage(url: string, filePath: string, summary: seq<NRGBA>)

  /** A job: the image, the channel to retry on, the channel to forward to, the failures so far. */
  datatype RqJob = RqJob(image: RqImage, retryChn: Option<Chan>, nextChn: Option<Chan>, nFails: nat)

  datatype RqError = RqError(job: RqJob, errorType: ErrorType, errorMsg: string)

  /** The job `readURLs` sends for a line: no file yet, no summary, no channels, no failures. */
  function Admitted(url: string): (j: RqJob)
    ensures j.image.url == url && j.image.filePath == "" && j.image.summary == []
    ensures j.retryChn.None? && j.nextChn.None? && j.nFails == 0
  {
    RqJob(RqImage(url, "", []), None, None, 0)
  }

  /** `NewRqError`: an error record holding a copy of the job with one more failure. */
  function NewRqError(job: RqJob, errorType: ErrorType, message: string): (e: RqError)
    ensures e.job.nFails == job.nFails + 1
    ensures e.job.image == job.image && e.job.retryChn == job.retryChn && e.job.nextChn == job.nextChn
    ensures e.errorType == errorType && e.errorMsg == message
  {
    RqError(job.(nFails := job.nFails + 1), errorType, message)
  }

  // ---------------------------------------------------------------------
  // handleError's decision
  // ---------------------------------------------------------------------

  /** The condition under which `handleError` drops the job from the pipeline. */
  predicate Evicts(e: RqError): (r: bool)
    ensures e.errorType != ErrNoRetry && e.job.retryChn.Some? ==> (r <==> e.job.nFails >= MAX_FAILS)
    ensures e.job.nFails < MAX_FAILS && e.job.retryChn.Some? ==> (r <==> e.errorType == ErrNoRetry)
    ensures e.job.retryChn.None? ==> r
  {
    e.errorType == ErrNoRetry || e.job.nFails >= MAX_FAILS || e.job.retryChn.None?
  }

  datatype Decision = Evict | Requeue(chn: Chan, job: RqJob)

  /** `handleError`: evict, or send the job as carried by the error back onto its retry channel. */
  function Decide(e: RqError): (d: Decision)
    ensures d.Evict? <==> Evicts(e)
    ensures d.Requeue? ==> e.job.retryChn == Some(d.chn) && d.job == e.job
  {
    if Evicts(e) then Evict else Requeue(e.job.retryChn.value, e.job)
  }

  // ---------------------------------------------------------------------
  // Routing
  // ---------------------------------------------------------------------

  /** The channels a worker of kind w gives every job it dequeues. */
  predicate Bound(j: RqJob, w: Worker) {
    j.retryChn == Some(Input(w)) && j.nextChn == Some(Output(w))
  }

  /** `job.retryChn = …; job.nextChn = …` in the worker loops. */
  function Rebind(j: RqJob, w: Worker): (r: RqJob)
    ensures Bound(r, w) && r.image == j.image && r.nFails == j.nFails
  {
    j.(retryChn := Some(Input(w)), nextChn := Some(Output(w)))
  }

  /** Each worker retries on its own channel and forwards to the one after it. */
  lemma RoutingAdvances(w: Worker)
    ensures Position(Output(w)) == Position(Input(w)) + 1
    ensures Input(w) != SaveChn && Output(w) != DownloadChn
  {
  }

  /** Every channel but Save is read by exactly one kind of worker. */
  lemma InputsDistinct(v: Worker, w: Worker)
    ensures Input(v) == Input(w) <==> v == w
    ensures Output(v) == Output(w) <==> v == w
  {
  }

  /**
    * A job that fails at stage w and is not evicted goes back to w's own
    * channel, unchanged apart from the failure count: it never restarts from
    * Download unless Download failed it.
    */
  lemma RequeueTarget(j: RqJob, w: Worker, msg: string)
    requires j.nFails + 1 < MAX_FAILS
    ensures Decide(NewRqError(Rebind(j, w), StageError(w), msg))
         == Requeue(Input(w), Rebind(j, w).(nFails := j.nFails + 1))
    ensures w != DownloadWorker ==> Input(w) != DownloadChn
  {
  }

  // ---------------------------------------------------------------------
  // The retry bound
  // ---------------------------------------------------------------------

  /** How `handleError` treated a job: how often it saw it, how often it requeued it, and whether it evicted it. */
  datatype Fate = Fate(handled: nat, requeued: nat, evicted: bool)

  /**
    * The job fails at the stages ws in turn (successful stages in between do
    * not touch its failure count); each failure is one error handled by
    * `handleError`, until the job is evicted.
    */
  function Failures(j: RqJob, ws: seq<Worker>, msg: string): (f: Fate)
    ensures f.handled <= |ws|
    ensures f.handled == f.requeued + (if f.evicted then 1 else 0)
    ensures !f.evicted ==> f.handled == |ws|
    decreases |ws|
  {
    if ws == [] then Fate(0, 0, false)
    else
      match Decide(NewRqError(Rebind(j, ws[0]), StageError(ws[0]), msg))
      case Evict => Fate(1, 0, true)
      case Requeue(_, next) =>
        var f := Failures(next, ws[1..], msg);
        Fate(f.handled + 1, f.requeued + 1, f.evicted)
  }

  /**
    * A job with k < 3 failures is evicted by its (3 - k)-th further failure,
    * wherever the failures happen: `handleError` sees it 3 - k times and
    * requeues it 2 - k times.
    */
  lemma {:induction false} RetryBound(j: RqJob, ws: seq<Worker>, msg: string)
    requires j.nFails < MAX_FAILS && |ws| >= MAX_FAILS - j.nFails
    ensures Failures(j, ws, msg) == Fate(MAX_FAILS - j.nFails, MAX_FAILS - j.nFails - 1, true)
    decreases |ws|
  {
    var e := NewRqError(Rebind(j, ws[0]), StageError(ws[0]), msg);
    if j.nFails + 1 < MAX_FAILS {
      RetryBound(e.job, ws[1..], msg);
    }
  }

  /** Fewer failures than that leave the job in the pipeline, requeued after each one. */
  lemma {:induction false} NoEvictionBeforeBound(j: RqJob, ws: seq<Worker>, msg: string)
    requires j.nFails + |ws| < MAX_FAILS
    ensures Failures(j, ws, msg) == Fate(|ws|, |ws|, false)
    decreases |ws|
  {
    if ws != [] {
      var e := NewRqError(Rebind(j, ws[0]), StageError(ws[0]), msg);
      NoEvictionBeforeBound(e.job, ws[1..], msg);
    }
  }

  /** A fresh job whose stage always fails: three errors handled, two requeues, then eviction. */
  lemma AlwaysFailingJob(url: string, w: Worker, msg: string)
    ensures Failures(Admitted(url), [w, w, w], msg) == Fate(3, 2, true)
    ensures Failures(Admitted(url), [w, w], msg) == Fate(2, 2, false)
  {
    RetryBound(Admitted(url), [w, w, w], msg);
    NoEvictionBeforeBound(Admitted(url), [w, w], msg);
  }

  // ---------------------------------------------------------------------
  // Stage contracts
  // ---------------------------------------------------------------------

  /** What one stage call does with a job: forward it on `nextChn`, or report one error. */
  datatype Outcome = Forwarded(job: RqJob) | Reported(err: RqError)

  /**
    * A stage either forwards the job with its URL, channels and failure count
    * intact, or reports one error of its own type carrying the job as it
    * received it with one more failure.
    */
  predicate StageContract(j: RqJob, w: Worker, o: Outcome) {
    match o
    case Forwarded(k) =>
      k.image.url == j.image.url && k.retryChn == j.retryChn && k.nextChn == j.nextChn && k.nFails == j.nFails
    case Reported(e) =>
      e.errorType == StageError(w) && e.job == j.(nFails := j.nFails + 1)
  }

  /** What creating the temporary file and fetching the URL into it came to. */
  datatype Fetch =
    | TempFileFailed(msg: string)
    | FetchFailed(tmp: string, msg: string)
    | Fetched(tmp: string)

  /** `downloadImage`: on success the job records the temporary file it was saved to. */
  function DownloadImage(j: RqJob, fetch: Fetch): (o: Outcome)
    ensures StageContract(j, DownloadWorker, o)
    ensures o.Forwarded? <==> fetch.Fetched?
    ensures o.Forwarded? ==> o.job.image.filePath == fetch.tmp && o.job.image.summary == j.image.summary
  {
    match fetch
    case TempFileFailed(msg) => Reported(NewRqError(j, ErrDownload, msg))
    case FetchFailed(_, msg) => Reported(NewRqError(j, ErrDownload, msg))
    case Fetched(tmp) => Forwarded(j.(image := j.image.(filePath := tmp)))
  }

  /**
    * The temporary files after `downloadImage`: the file is created before the
    * fetch, so a failed fetch leaves it behind, named by no job.
    */
  function DownloadFiles(files: set<string>, fetch: Fetch): (r: set<string>)
    ensures fetch.TempFileFailed? ==> r == files
    ensures !fetch.TempFileFailed? ==> r == files + {fetch.tmp}
  {
    if fetch.TempFileFailed? then files else files + {fetch.tmp}
  }

  /**
    * `summarizeImage`: the file must open (be among the existing files) and
    * decode; the summary is then the tracker's result on the decoded image.
    */
  function SummarizeImage(j: RqJob, files: set<string>, decoded: Option<Prevalent.Image>, msg: string): (o: Outcome)
    requires decoded.Some? ==> decoded.value.WellFormed()
    ensures StageContract(j, SummarizeWorker, o)
    ensures o.Forwarded? <==> j.image.filePath in files && decoded.Some?
    ensures o.Forwarded? ==> o.job.image.filePath == j.image.filePath
    ensures o.Forwarded? ==> o.job.image.summary == Prevalent.Summary(decoded.value)
    ensures o.Forwarded? ==> |o.job.image.summary| == 3
  {
    if j.image.filePath !in files || decoded.None? then Reported(NewRqError(j, ErrSummarize, msg))
    else Forwarded(j.(image := j.image.(summary := Prevalent.Summary(decoded.value))))
  }

  /** `os.Remove` fails when the file does not exist, or for a reason outside the model (`denied`). */
  predicate RemoveFails(path: string, files: set<string>, denied: bool) {
    path !in files || denied
  }

  /**
    * `cleanupImage`: a job without a file passes through; otherwise the file is
    * removed and the job forwarded without it. A failed removal is reported
    * only when there is an error channel; without one the job is forwarded as
    * if the removal had succeeded.
    */
  function CleanupImage(j: RqJob, files: set<string>, denied: bool, hasErrorChn: bool, msg: string): (o: Outcome)
    ensures StageContract(j, CleanupWorker, o)
    ensures j.image.filePath == "" ==> o == Forwarded(j)
    ensures o.Reported? <==> j.image.filePath != "" && RemoveFails(j.image.filePath, files, denied) && hasErrorChn
    ensures o.Forwarded? ==> o.job.image.filePath == "" && o.job.image.summary == j.image.summary
  {
    if j.image.filePath == "" then Forwarded(j)
    else if RemoveFails(j.image.filePath, files, denied) && hasErrorChn then Reported(NewRqError(j, ErrCleanup, msg))
    else Forwarded(j.(image := j.image.(filePath := "")))
  }

  /** The files after `cleanupImage`: the job's file is gone exactly when the removal succeeded. */
  function CleanupFiles(j: RqJob, files: set<string>, denied: bool): (r: set<string>)
    ensures r <= files
    ensures j.image.filePath != "" && !RemoveFails(j.image.filePath, files, denied) ==> j.image.filePath !in r
    ensures forall p :: p in files && p != j.image.filePath ==> p in r
    ensures j.image.filePath == "" || RemoveFails(j.image.filePath, files, denied) ==> r == files
  {
    if j.image.filePath != "" && !RemoveFails(j.image.filePath, files, denied) then files - {j.image.filePath}
    else files
  }

  // ---------------------------------------------------------------------
  // Init
  // ---------------------------------------------------------------------

  /** The number of workers of each kind. */
  datatype PipeConfig = PipeConfig(download: int, summarize: int, cleanup: int)

  predicate WorkersPositive(cfg: PipeConfig) {
    cfg.download > 0 && cfg.summarize > 0 && cfg.cleanup > 0
  }

  const ERR_WORKERS := "Pipeline config values for workers must be greater than 0"
  const ERR_SOURCE := "Pipeline has no source set. Use method WithSource to set it."
  const ERR_OUTPUT := "Pipeline has no output file set. Use method WithSource to set it."

  /** The error `Init` returns: worker counts first, then the source, then the output. */
  function InitError(cfg: PipeConfig, hasSource: bool, hasOutput: bool): (err: Option<string>)
    ensures err.None? <==> WorkersPositive(cfg) && hasSource && hasOutput
    ensures !WorkersPositive(cfg) ==> err == Some(ERR_WORKERS)
    ensures WorkersPositive(cfg) && !hasSource ==> err == Some(ERR_SOURCE)
    ensures WorkersPositive(cfg) && hasSource && !hasOutput ==> err == Some(ERR_OUTPUT)
  {
    if !WorkersPositive(cfg) then Some(ERR_WORKERS)
    else if !hasSource then Some(ERR_SOURCE)
    else if !hasOutput then Some(ERR_OUTPUT)
    else None
  }

  // ---------------------------------------------------------------------
  // Shutdown arithmetic
  // ---------------------------------------------------------------------

  /** Who calls `stopWorkers`: the reader (corrected model only), the writer, or the error handler. */
  datatype Caller = Reader | Writer | ErrorHandler

  function Max0(n: int): (r: nat)
    ensures r >= n && (n >= 0 ==> r == n)
  {
    if n < 0 then 0 else n
  }

  /** The tokens `stopWorkers` sends on `doneChn`: one per worker plus one for the error handler. */
  function StopTokens(cfg: PipeConfig): (n: int)
    ensures WorkersPositive(cfg) ==> n == Started(cfg)
  {
    cfg.download + cfg.summarize + cfg.cleanup + 1
  }

  /**
    * The goroutines `Run` registers with its WaitGroup: the error handler, the
    * download and summarize workers, nCleanup - 1 cleanup workers and the
    * calling goroutine as the last cleanup worker. Each of them listens on
    * `doneChn`.
    */
  function Started(cfg: PipeConfig): (n: nat)
    ensures n >= 2
    ensures WorkersPositive(cfg) ==> n == cfg.download + cfg.summarize + cfg.cleanup + 1
  {
    1 + Max0(cfg.download) + Max0(cfg.summarize) + Max0(cfg.cleanup - 1) + 1
  }

  /** The goroutines that can receive the caller's tokens: all listeners but the caller itself. */
  function Listeners(cfg: PipeConfig, caller: Caller): nat {
    Started(cfg) - (if caller == ErrorHandler then 1 else 0)
  }

  /**
    * When the error handler itself calls `stopWorkers` it cannot receive its
    * own token: one token more is sent than there are receivers, and the
    * last send on the unbuffered channel never completes.
    */
  lemma HandlerShutdownOversends(cfg: PipeConfig)
    requires WorkersPositive(cfg)
    ensures StopTokens(cfg) == Listeners(cfg, ErrorHandler) + 1
    ensures StopTokens(cfg) == Listeners(cfg, Writer)
  {
  }

  /** The corrected token count: one per goroutine that can still receive one. */
  function ShutdownTokens(cfg: PipeConfig, caller: Caller): int {
    StopTokens(cfg) - (if caller == ErrorHandler then 1 else 0)
  }

  lemma ShutdownTokensMatchListeners(cfg: PipeConfig, caller: Caller)
    requires WorkersPositive(cfg)
    ensures ShutdownTokens(cfg, caller) == Listeners(cfg, caller)
  {
  }

  /** `Run`'s `wg.Add(1)` calls, counted as its loops count them. */
  method CountStarted(cfg: PipeConfig) returns (n: int)
    ensures n == Started(cfg)
    ensures WorkersPositive(cfg) ==> n == StopTokens(cfg)
  {
    n := 1; // error handler
    var i := 0;
    while i < cfg.download
      invariant 0 <= i <= Max0(cfg.download)
      invariant n == 1 + i
    {
      n := n + 1;
      i := i + 1;
    }
    i := 0;
    while i < cfg.summarize
      invariant 0 <= i <= Max0(cfg.summarize)
      invariant n == 1 + Max0(cfg.download) + i
    {
      n := n + 1;
      i := i + 1;
    }
    i := 0;
    while i < cfg.cleanup - 1
      invariant 0 <= i <= Max0(cfg.cleanup - 1)
      invariant n == 1 + Max0(cfg.download) + Max0(cfg.summarize) + i
    {
      n := n + 1;
      i := i + 1;
    }
    n := n + 1; // the calling goroutine, as the last cleanup worker
  }
}
