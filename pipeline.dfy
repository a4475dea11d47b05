/**
  * `RqPipeline` and its pool (pipeline.go) as one object whose fields are the
  * channels, the completion counter and flag, and the shutdown latch. Each
  * method is one step of one goroutine, performed in place; its contract ties
  * the new fields to the step function of the same name in `Steps` and keeps
  * `Valid()`, which adds to the invariant of `Steps` the conservation law of
  * the counter over the ghost totals of admitted, saved and evicted jobs.
  */
module Pipeline {
  import opened Wrappers
  import opened Jobs
  import opened Steps
  import Prevalent
  import Rows

  class RqPipeline {
    var cfg: PipeConfig
    var hasSource: bool
    var hasOutput: bool
    var downloadChn: seq<RqJob>
    var summarizeChn: seq<RqJob>
    var cleanupChn: seq<RqJob>
    var saveChn: seq<RqJob>
    var errorChn: seq<RqError>
    var imageCount: int
    var readURLsDone: bool
    var stoppedBy: Option<Caller>
    var tokens: nat
    var files: set<string>
    var output: string
    var writerExited: bool
    var handlerExited: bool

    /** Jobs ever admitted, saved and evicted. */
    ghost var admitted: nat
    ghost var saved: nat
    ghost var evicted: nat

    /** The fields as a value. */
    function St(): State
      reads this
    {
      State(cfg, hasSource, hasOutput, downloadChn, summarizeChn, cleanupChn, saveChn, errorChn,
            imageCount, readURLsDone, stoppedBy, tokens, files, output, writerExited, handlerExited)
    }

    /** The step invariant, and every admitted job is saved, evicted or still in a channel. */
    ghost predicate Valid()
      reads this
    {
      Good(St()) && admitted == saved + evicted + InFlight(St())
    }

    /** `NewPipeline`. */
    constructor (config: PipeConfig)
      ensures St() == Initial(config) && Valid() && NoMissedCompletion(St())
      ensures admitted == 0 && saved == 0 && evicted == 0
    {
      cfg := config;
      hasSource, hasOutput := false, false;
      downloadChn, summarizeChn, cleanupChn, saveChn := [], [], [], [];
      errorChn := [];
      imageCount := 0;
      readURLsDone := false;
      stoppedBy := None;
      tokens := 0;
      files := {};
      output := "";
      writerExited := false;
      handlerExited := false;
      admitted, saved, evicted := 0, 0, 0;
    }

    /** `WithSource`: whether a (non-nil) reader was given. */
    method WithSource(present: bool)
      modifies this
      ensures St() == old(St()).(hasSource := present)
      ensures admitted == old(admitted) && saved == old(saved) && evicted == old(evicted)
    {
      hasSource := present;
    }

    /** `WithOutput`: whether a (non-nil) writer was given. */
    method WithOutput(present: bool)
      modifies this
      ensures St() == old(St()).(hasOutput := present)
      ensures admitted == old(admitted) && saved == old(saved) && evicted == old(evicted)
    {
      hasOutput := present;
    }

    /** `Init`: the pipeline is returned unchanged, with the first failed check's message. */
    method Init() returns (err: Option<string>)
      ensures err == InitError(cfg, hasSource, hasOutput)
      ensures err.None? <==> WorkersPositive(cfg) && hasSource && hasOutput
    {
      if cfg.download <= 0 || cfg.summarize <= 0 || cfg.cleanup <= 0 {
        return Some(ERR_WORKERS);
      }
      if !hasSource {
        return Some(ERR_SOURCE);
      }
      if !hasOutput {
        return Some(ERR_OUTPUT);
      }
      return None;
    }

    /** `isDone`. A method-side copy of `Done`, so that the methods branch on the fields directly. */
    predicate IsDone(): (done: bool)
      reads this
      ensures done <==> Done(St())
    {
      readURLsDone && imageCount == 0
    }

    /** `ch <- job` on one of the job channels. */
    method SendJob(ch: Chan, job: RqJob)
      modifies this
      ensures St() == Send(old(St()), ch, job)
      ensures admitted == old(admitted) && saved == old(saved) && evicted == old(evicted)
    {
      match ch
      case DownloadChn => downloadChn := downloadChn + [job];
      case SummarizeChn => summarizeChn := summarizeChn + [job];
      case CleanupChn => cleanupChn := cleanupChn + [job];
      case SaveChn => saveChn := saveChn + [job];
    }

    /** `stopWorkers`: under the latch, one token per goroutine that can still receive one. */
    method StopWorkers(caller: Caller)
      modifies this
      ensures St() == Stop(old(St()), caller)
      ensures admitted == old(admitted) && saved == old(saved) && evicted == old(evicted)
    {
      if stoppedBy.None? {
        stoppedBy := Some(caller);
        SendTokens(ShutdownTokens(cfg, caller));
      }
    }

    /** The send loop of `stopWorkers`: n values on `doneChn`, nothing else touched. */
    method SendTokens(n: int)
      modifies this`tokens
      ensures tokens == old(tokens) + Max0(n)
    {
      var i := 0;
      while i < n
        invariant 0 <= i <= Max0(n)
        invariant tokens == old(tokens) + i
      {
        tokens := tokens + 1; // pool.doneChn <- 1
        i := i + 1;
      }
    }

    /** One iteration of `readURLs`: count the line's job, then send it to download. */
    method AdmitLine(url: string)
      requires Valid() && !readURLsDone
      modifies this
      ensures St() == Admit(old(St()), url)
      ensures Valid() && NoMissedCompletion(St())
      ensures admitted == old(admitted) + 1 && saved == old(saved) && evicted == old(evicted)
    {
      AdmitGood(St(), url);
      imageCount := Inc(imageCount);
      admitted := admitted + 1;
      SendJob(DownloadChn, Admitted(url));
    }

    /**
      * `readURLs`, with the completion check its end lacks: the lines' jobs
      * join the download channel in order, and a pipeline that is already done
      * (nothing read, or every job already saved or evicted) is stopped.
      */
    method ReadURLs(lines: seq<string>)
      requires Valid() && !readURLsDone
      modifies this
      ensures St() == FinishReading(AdmitAll(old(St()), lines))
      ensures downloadChn == old(downloadChn) + seq(|lines|, i requires 0 <= i < |lines| => Admitted(lines[i]))
      ensures Valid() && NoMissedCompletion(St()) && readURLsDone
      ensures admitted == old(admitted) + |lines| && saved == old(saved) && evicted == old(evicted)
    {
      for k := 0 to |lines|
        invariant Valid() && !readURLsDone
        invariant St() == AdmitAll(old(St()), lines[..k])
        invariant admitted == old(admitted) + k && saved == old(saved) && evicted == old(evicted)
      {
        assert lines[..k + 1][..k] == lines[..k];
        AdmitLine(lines[k]);
      }
      assert lines[..|lines|] == lines;
      AdmitAllGood(old(St()), lines);
      FinishReadingGood(St());
      readURLsDone := true;
      if IsDone() {
        StopWorkers(Reader);
      }
    }

    /** `<-ch`: the oldest job of a non-empty job channel. */
    method ReceiveJob(ch: Chan) returns (job: RqJob)
      requires |Queue(St(), ch)| > 0
      modifies this
      ensures job == Queue(old(St()), ch)[0]
      ensures St() == Receive(old(St()), ch)
      ensures admitted == old(admitted) && saved == old(saved) && evicted == old(evicted)
    {
      match ch
      case DownloadChn => job := downloadChn[0]; downloadChn := downloadChn[1..];
      case SummarizeChn => job := summarizeChn[0]; summarizeChn := summarizeChn[1..];
      case CleanupChn => job := cleanupChn[0]; cleanupChn := cleanupChn[1..];
      case SaveChn => job := saveChn[0]; saveChn := saveChn[1..];
    }

    /** `errorChn <- e`. */
    method ReportError(e: RqError)
      modifies this
      ensures St() == old(St()).(errorChn := old(errorChn) + [e])
      ensures admitted == old(admitted) && saved == old(saved) && evicted == old(evicted)
    {
      errorChn := errorChn + [e];
    }

    /** The worker's send after a stage: the job to its next channel, or the error to the error channel. */
    method DeliverOutcome(o: Outcome)
      requires o.Forwarded? ==> o.job.nextChn.Some?
      modifies this
      ensures St() == Deliver(old(St()), o)
      ensures admitted == old(admitted) && saved == old(saved) && evicted == old(evicted)
    {
      match o {
        case Forwarded(job) => SendJob(job.nextChn.value, job);
        case Reported(e) => ReportError(e);
      }
    }

    /** `downloadImage`: the temporary file is created, then filled by the fetch. */
    method DownloadStage(job: RqJob, fetch: Fetch) returns (o: Outcome)
      modifies this
      ensures o == DownloadImage(job, fetch)
      ensures St() == old(St()).(files := DownloadFiles(old(files), fetch))
      ensures admitted == old(admitted) && saved == old(saved) && evicted == old(evicted)
    {
      match fetch {
        case TempFileFailed(msg) =>
          o := Reported(NewRqError(job, ErrDownload, msg));
        case FetchFailed(tmp, msg) =>
          files := files + {tmp};
          o := Reported(NewRqError(job, ErrDownload, msg));
        case Fetched(tmp) =>
          files := files + {tmp};
          o := Forwarded(job.(image := job.image.(filePath := tmp)));
      }
    }

    /** `summarizeImage`: open and decode the file, then `getPrevalentColors`. */
    method SummarizeStage(job: RqJob, decoded: Option<Prevalent.Image>, msg: string) returns (o: Outcome)
      requires decoded.Some? ==> decoded.value.WellFormed()
      ensures o == SummarizeImage(job, files, decoded, msg)
    {
      if job.image.filePath !in files || decoded.None? {
        o := Reported(NewRqError(job, ErrSummarize, msg));
      } else {
        var summary := Prevalent.GetPrevalentColors(decoded.value);
        o := Forwarded(job.(image := job.image.(summary := summary)));
      }
    }

    /** `cleanupImage` with the pool's error channel, which is never nil. */
    method CleanupStage(job: RqJob, denied: bool, msg: string) returns (o: Outcome)
      modifies this
      ensures o == CleanupImage(job, old(files), denied, true, msg)
      ensures St() == old(St()).(files := CleanupFiles(job, old(files), denied))
      ensures admitted == old(admitted) && saved == old(saved) && evicted == old(evicted)
    {
      if job.image.filePath == "" {
        o := Forwarded(job);
      } else if RemoveFails(job.image.filePath, files, denied) {
        o := Reported(NewRqError(job, ErrCleanup, msg));
      } else {
        files := files - {job.image.filePath};
        o := Forwarded(job.(image := job.image.(filePath := "")));
      }
    }

    /** One iteration of `workDownload`. */
    method WorkDownload(fetch: Fetch)
      requires Valid() && NoMissedCompletion(St()) && |downloadChn| > 0
      modifies this
      ensures St() == DownloadStep(old(St()), fetch)
      ensures Valid() && NoMissedCompletion(St())
      ensures admitted == old(admitted) && saved == old(saved) && evicted == old(evicted)
    {
      ghost var s0 := St();
      var job := ReceiveJob(DownloadChn);
      job := job.(retryChn := Some(DownloadChn), nextChn := Some(SummarizeChn));
      var o := DownloadStage(job, fetch);
      DeliverOutcome(o);
      DownloadGood(s0, fetch);
    }

    /** One iteration of `workSummarize`. */
    method WorkSummarize(decoded: Option<Prevalent.Image>, msg: string)
      requires Valid() && NoMissedCompletion(St()) && |summarizeChn| > 0
      requires decoded.Some? ==> decoded.value.WellFormed()
      modifies this
      ensures St() == SummarizeStep(old(St()), decoded, msg)
      ensures Valid() && NoMissedCompletion(St())
      ensures admitted == old(admitted) && saved == old(saved) && evicted == old(evicted)
    {
      ghost var s0 := St();
      var job := ReceiveJob(SummarizeChn);
      job := job.(retryChn := Some(SummarizeChn), nextChn := Some(CleanupChn));
      var o := SummarizeStage(job, decoded, msg);
      DeliverOutcome(o);
      SummarizeGood(s0, decoded, msg);
    }

    /** One iteration of `workCleanup`. */
    method WorkCleanup(denied: bool, msg: string)
      requires Valid() && NoMissedCompletion(St()) && |cleanupChn| > 0
      modifies this
      ensures St() == CleanupStep(old(St()), denied, msg)
      ensures Valid() && NoMissedCompletion(St())
      ensures admitted == old(admitted) && saved == old(saved) && evicted == old(evicted)
    {
      ghost var s0 := St();
      var job := ReceiveJob(CleanupChn);
      job := job.(retryChn := Some(CleanupChn), nextChn := Some(SaveChn));
      var o := CleanupStage(job, denied, msg);
      DeliverOutcome(o);
      CleanupGood(s0, denied, msg);
    }

    /**
      * One iteration of `writeResults`, given the job's hex summary and the
      * result of the write: the row is appended and the job leaves the
      * pipeline, or a failed write is reported as a no-retry error.
      */
    method WriteResult(hex: seq<string>, writeErr: Option<string>)
      requires Valid() && NoMissedCompletion(St()) && |saveChn| > 0 && !writerExited
      modifies this
      ensures St() == WriteStep(old(St()), hex, writeErr)
      ensures Valid() && NoMissedCompletion(St())
      ensures admitted == old(admitted) && evicted == old(evicted)
      ensures saved == old(saved) + (if writeErr.None? then 1 else 0)
    {
      ghost var s0 := St();
      var job := ReceiveJob(SaveChn);
      if writeErr.Some? {
        ReportError(NewRqError(job, ErrNoRetry, writeErr.value));
      } else {
        SaveRow(job, hex);
      }
      WriteGood(s0, hex, writeErr);
    }

    /** The successful write: append the row, count the job out, stop if that completed the pipeline. */
    method SaveRow(job: RqJob, hex: seq<string>)
      requires 0 <= imageCount < U64
      modifies this
      ensures var s := old(St()).(output := old(output) + Rows.Row(job.image.url, hex), imageCount := Dec(old(imageCount)));
              St() == if Done(s) then Stop(s, Writer).(writerExited := true) else s
      ensures admitted == old(admitted) && saved == old(saved) + 1 && evicted == old(evicted)
    {
      output := output + Rows.Row(job.image.url, hex);
      imageCount := Dec(imageCount);
      saved := saved + 1;
      if IsDone() {
        StopWriter();
      }
    }

    /** The writer's exit: `stopWorkers`, then return from `writeResults`. */
    method StopWriter()
      modifies this
      ensures St() == Stop(old(St()), Writer).(writerExited := true)
      ensures admitted == old(admitted) && saved == old(saved) && evicted == old(evicted)
    {
      StopWorkers(Writer);
      writerExited := true;
    }

    /** `handleError` on the oldest error record. */
    method HandleError()
      requires Valid() && NoMissedCompletion(St()) && |errorChn| > 0
      modifies this
      ensures St() == HandleStep(old(St()))
      ensures Valid() && NoMissedCompletion(St())
      ensures admitted == old(admitted) && saved == old(saved)
      ensures evicted == old(evicted) + (if Evicts(old(errorChn[0])) then 1 else 0)
    {
      ghost var s0 := St();
      HandleGood(s0);
      HandleStepCases(s0);
      var jobError := TakeError();
      if jobError.errorType == ErrNoRetry || jobError.job.nFails >= MAX_FAILS || jobError.job.retryChn.None? {
        EvictJob(jobError);
      } else {
        SendJob(jobError.job.retryChn.value, jobError.job);
      }
    }

    /** `<-errorChn`: the oldest error record. */
    method TakeError() returns (e: RqError)
      requires |errorChn| > 0
      modifies this
      ensures e == old(errorChn[0])
      ensures St() == old(St()).(errorChn := old(errorChn[1..]))
      ensures admitted == old(admitted) && saved == old(saved) && evicted == old(evicted)
    {
      e := errorChn[0];
      errorChn := errorChn[1..];
    }

    /**
      * The eviction branch of `handleError`: remove the file, count the job
      * out, and, if that completed the pipeline and nobody has stopped it yet,
      * stop the other goroutines and leave the handler's loop (corrected).
      */
    method EvictJob(jobError: RqError)
      requires 0 <= imageCount < U64
      modifies this
      ensures St() == HandlerFinish(old(St()).(files := old(files) - {jobError.job.image.filePath},
                                               imageCount := Dec(old(imageCount))))
      ensures admitted == old(admitted) && saved == old(saved) && evicted == old(evicted) + 1
    {
      files := files - {jobError.job.image.filePath};
      imageCount := Dec(imageCount);
      evicted := evicted + 1;
      FinishHandling();
    }

    /** After an eviction: if the pipeline is complete and still running, stop it and leave the handler's loop. */
    method FinishHandling()
      modifies this
      ensures St() == HandlerFinish(old(St()))
      ensures admitted == old(admitted) && saved == old(saved) && evicted == old(evicted)
    {
      if IsDone() && stoppedBy.None? {
        StopWorkers(ErrorHandler);
        handlerExited := true; // return from handleErrors
      }
    }

    /** While fewer than 2^64 jobs are in flight, the counter is admitted - saved - evicted. */
    lemma Conservation()
      requires Valid() && InFlight(St()) < U64
      ensures imageCount == admitted - saved - evicted
      ensures IsDone() <==> readURLsDone && admitted == saved + evicted
    {
      CounterExact(St());
    }
  }
}
