/** The FLASH exchange with `flash_hex` in its place: what the client's exit code and the
    lines it prints say about the board. */
module RemoteFlash {
  import opened Wrappers
  import opened FlashWire
  import opened FlashWireSafety
  import opened FlashWireCompletion
  import FlashRecovery

  /** What is known of the board and its processes: how an invalid file is told, how the
      remarks read, and what one call of `flash_hex` did. */
  datatype Job = Job(uid: string, name: string, invalid: string -> Option<string>,
                     wording: FlashRecovery.Status -> string,
                     runs: seq<FlashRecovery.Ran>, log: seq<FlashRecovery.Entry>, rc: int)

  function Worded(job: Job, e: FlashRecovery.Entry): string {
    match e
    case Output(line) => line
    case Note(status) => job.wording(status)
  }

  /** The log as it is handed to the connection, line by line. */
  function Spoken(job: Job): seq<string> {
    seq(|job.log|, i requires 0 <= i < |job.log| => Worded(job, job.log[i]))
  }

  /** The daemon of `cfg` flashes with this job: its log and result are those of
      `flash_hex` on the file it was sent. */
  predicate Does(cfg: Config, job: Job) {
    && FlashRecovery.Outcome(job.uid, cfg.payload, job.invalid(cfg.payload), job.name, job.runs, job.log, job.rc)
    && cfg.log == Spoken(job) && cfg.rc == job.rc
  }

  /** `file` was the last thing written to the board, successfully, and the board was
      reset after it, successfully. */
  predicate RunsFile(job: Job, file: string) {
    && job.runs != []
    && var last, written := job.runs[|job.runs| - 1], FlashRecovery.LastFlash(job.runs);
       && last == FlashRecovery.Ran(job.uid, FlashRecovery.Reset, 0, last.lines)
       && written.Some?
       && written.value == FlashRecovery.Ran(job.uid, FlashRecovery.Flash(file), 0, written.value.lines)
  }

  lemma {:induction false} LastFlashIsOne(runs: seq<FlashRecovery.Ran>)
    ensures FlashRecovery.LastFlash(runs).Some? ==>
              FlashRecovery.LastFlash(runs).value in runs && FlashRecovery.LastFlash(runs).value.command.Flash?
  {
    if runs != [] {
      LastFlashIsOne(runs[..|runs| - 1]);
    }
  }

  /** `flash_hex` returns 0 exactly when it leaves the file running. */
  lemma ZeroMeansRunning(job: Job, file: string)
    requires FlashRecovery.Outcome(job.uid, file, job.invalid(file), job.name, job.runs, job.log, job.rc)
    ensures job.rc == 0 <==> RunsFile(job, file)
    ensures job.rc == 0 ==> job.invalid(file).None? && !FlashRecovery.LeftEmpty(job.runs)
  {
    LastFlashIsOne(job.runs);
    hide FlashRecovery.Transient;
    hide FlashRecovery.Locked;
    hide FlashRecovery.Deciding;
    hide FlashRecovery.OutputOf;
    hide FlashRecovery.LinesOf;
    hide FlashRecovery.Remarks;
    hide FlashRecovery.SaysNoFirmware;
  }

  /**
    Under any faults, a client that returns 0 has its own file running on the board:
    it is valid, it was written last, by a write that succeeded, and the board was
    reset after it.
   */
  lemma RemoteSuccessMeansRunning(cfg: Config, run: seq<Action>, job: Job)
    requires ValidConfig(cfg) && Does(cfg, job) && Run(cfg, Init(cfg), run).Some?
    requires Run(cfg, Init(cfg), run).value.client == Returned(0)
    ensures Run(cfg, Init(cfg), run).value.calls == [cfg.payload]
    ensures RunsFile(job, cfg.payload) && job.invalid(cfg.payload).None? && !FlashRecovery.LeftEmpty(job.runs)
  {
    hide Run;
    hide RunsFile;
    hide FlashRecovery.Outcome;
    SuccessMeansFlashed(cfg, run);
    ZeroMeansRunning(job, cfg.payload);
  }

  /** Without faults the exit code is 0 exactly when the file is left running and every
      line that `flash_hex` logged could be read; the client prints those lines up to the
      first that is too long.  If the answer was to refuse the file, it was not written,
      and the reason is the one line there is to print. */
  lemma ExitCodeTellsTheBoard(cfg: Config, run: seq<Action>, job: Job)
    requires Unhindered(cfg) && Does(cfg, job) && FaultFree(run) && Run(cfg, Init(cfg), run).Some?
    requires Run(cfg, Init(cfg), run).value.client.Returned?
    ensures var s := Run(cfg, Init(cfg), run).value;
            && (s.client.code == 0 <==> RunsFile(job, cfg.payload) && AllFit(Spoken(job)))
            && s.relayed == Readable(Spoken(job))
            && (AllFit(Spoken(job)) ==> s.relayed == Spoken(job))
            && (job.invalid(cfg.payload).Some? ==>
                  && s.client.code == 1 && job.runs == []
                  && Spoken(job) == [job.wording(FlashRecovery.InvalidHex(job.invalid(cfg.payload).value))])
  {
    hide Run;
    hide RunsFile;
    hide Unhindered;
    hide AllFit;
    hide Readable;
    FaultFreeRunsComplete(cfg, run);
    AllFitIsReadable(Spoken(job));
    ZeroMeansRunning(job, cfg.payload);
    hide FlashRecovery.Accounted;
    hide FlashRecovery.OnlyFor;
    hide FlashRecovery.OutputOf;
    hide FlashRecovery.LinesOf;
  }
}
