/** `do_job`: runs one job over every (destination root, source) pair,
    classifies each backend exit code and keeps the job's running
    (severity, message). */
module Runner {
  import opened Text
  import opened Severities
  import opened Config
  import opened Paths
  import opened Commands

  /** The filesystem as the job sees it: whether a path is a directory, and
      whether creating a directory (with its parents) succeeds. */
  datatype Env = Env(isDir: string -> bool, makeDirs: string -> bool)

  /** The messages of the three robocopy exit-code bits. */
  const SeriousMessage: string := "serious error, no files copied"
  const MismatchMessage: string := "some mismatched files/dirs"
  const FailedCopyMessage: string := "some files failed to copy (could be system)"

  const RsyncPrefix: string := "rsync exit code "

  function RsyncMessage(code: nat): string
  {
    RsyncPrefix + Decimal(code)
  }

  function MkdirMessage(dst: string): string
  {
    "couldn't create dir '" + dst + "'"
  }

  function NoSourceMessage(src: string): string
  {
    "no source dir '" + src + "'"
  }

  function PlatformMessage(name: string, only: string): string
  {
    "job '" + name + "' " + only
  }

  /** Whether `code & value` is non-zero, for `value` a power of two; for a
      negative code this is the bit of its two's complement, as in Python. */
  predicate HasBit(code: int, value: nat)
    requires value > 0
  {
    (code / value) % 2 == 1
  }

  /** Robocopy's exit-code bits, highest first: 16 is a serious error, 4 a
      mismatch, 8 a failed copy (ignored when the job asks for it). */
  function RobocopyLevel(code: int, ignore: bool): Severity
  {
    if HasBit(code, 16) then Severe
    else if HasBit(code, 4) then Error
    else if HasBit(code, 8) && !ignore then Warn
    else Good
  }

  function RobocopyMessage(code: int): string
  {
    if HasBit(code, 16) then SeriousMessage
    else if HasBit(code, 4) then MismatchMessage
    else FailedCopyMessage
  }

  /** The three bit tests of a robocopy exit code, each raising the outcome
      on its own. */
  function ClassifyRobocopy(o: Outcome, code: int, ignore: bool): (r: Outcome)
    ensures r.severity == Max(o.severity, RobocopyLevel(code, ignore))
    ensures r.message == if Level(RobocopyLevel(code, ignore)) > Level(o.severity) then RobocopyMessage(code) else o.message
  {
    var o1 := if HasBit(code, 16) then Raise(o, Severe, SeriousMessage) else o;
    var o2 := if HasBit(code, 4) then Raise(o1, Error, MismatchMessage) else o1;
    if HasBit(code, 8) && !ignore then Raise(o2, Warn, FailedCopyMessage) else o2
  }

  /** An rsync exit code: any positive code is an error naming the code. */
  function ClassifyRsync(o: Outcome, code: int): (r: Outcome)
    ensures code <= 0 ==> r == o
    ensures code > 0 ==> r.severity == Max(o.severity, Error)
    ensures code > 0 && Level(o.severity) < Level(Error) ==> r.message == RsyncMessage(code)
    ensures code > 0 && Level(o.severity) >= Level(Error) ==> r == o
  {
    if code > 0 then Raise(o, Error, RsyncMessage(code)) else o
  }

  /** The rsync message names the exit code: after the fixed prefix come
      the code's decimal digits and nothing else. */
  lemma RsyncMessageNamesCode(code: nat)
    ensures RsyncMessage(code)[..|RsyncPrefix|] == RsyncPrefix
    ensures var digits := RsyncMessage(code)[|RsyncPrefix|..];
      digits == Decimal(code) && (forall i :: 0 <= i < |digits| ==> '0' <= digits[i] <= '9') && DecimalValue(digits) == code
  {
    assert RsyncMessage(code)[|RsyncPrefix|..] == Decimal(code);
    DecimalRoundTrip(code);
  }

  function Classify(backend: Backend, o: Outcome, code: int, ignore: bool): Outcome
  {
    if backend.Robocopy? then ClassifyRobocopy(o, code, ignore) else ClassifyRsync(o, code)
  }

  /** Robocopy exit codes 16, 4, 8 and 0, from a job that was so far GOOD. */
  lemma RobocopyExamples()
    ensures ClassifyRobocopy(Start, 16, false).severity == Severe
    ensures ClassifyRobocopy(Start, 4, false).severity == Error
    ensures ClassifyRobocopy(Start, 8, false).severity == Warn
    ensures ClassifyRobocopy(Start, 8, true) == Start
    ensures ClassifyRobocopy(Start, 0, false) == Start && ClassifyRobocopy(Start, 0, true) == Start
  {
  }

  lemma RsyncExamples()
    ensures ClassifyRsync(Start, 0) == Start
    ensures ClassifyRsync(Start, 23) == Outcome(Error, "rsync exit code 23")
  {
    assert Decimal(2) == "2";
    assert Decimal(23) == Decimal(2) + "3";
  }

  /** A code with several robocopy bits set keeps the message of the most
      severe one; code 0 changes nothing. */
  lemma RobocopyHighestBitWins(o: Outcome, code: int, ignore: bool)
    requires Level(o.severity) < Level(RobocopyLevel(code, ignore))
    ensures HasBit(code, 16) ==> ClassifyRobocopy(o, code, ignore) == Outcome(Severe, SeriousMessage)
    ensures !HasBit(code, 16) && HasBit(code, 4) ==> ClassifyRobocopy(o, code, ignore) == Outcome(Error, MismatchMessage)
  {
  }

  /** The state of a job between two pairs: its running outcome and the
      argument vectors started so far, in order. */
  datatype Progress = Progress(outcome: Outcome, launched: seq<seq<string>>)

  /** What a job's pairs share: the settings, the filesystem, the job, the
      dummy flag, the exit codes the backend will return (the k-th process
      the run starts returns `exitCode(k)`), the number of processes the run
      started before this job, and the job's command. */
  datatype JobContext = JobContext(
    cfg: Settings, env: Env, job: Job, dummy: bool,
    exitCode: nat -> int, first: nat, cmd: seq<string>)

  /** The rewritten source path of a pair. */
  function PairSource(c: JobContext, src0: string): string
  {
    NativeSeparators(src0, c.cfg.separator)
  }

  /** The destination path of a pair. */
  function PairDestination(c: JobContext, dst0: string, src0: string): string
  {
    Destination(NativeSeparators(dst0, c.cfg.separator), PairSource(c, src0), c.job.lefttrim, c.cfg.separator)
  }

  /** The destination is missing and cannot be created (only tried outside
      dummy mode). */
  predicate MkdirFailsAt(c: JobContext, dst: string)
  {
    !c.dummy && !c.env.isDir(dst) && !c.env.makeDirs(dst)
  }

  predicate MkdirFails(c: JobContext, dst0: string, src0: string)
  {
    MkdirFailsAt(c, PairDestination(c, dst0, src0))
  }

  /** A pair that is skipped with an error: its destination cannot be made or
      its source is not a directory. */
  predicate PairFails(c: JobContext, dst0: string, src0: string)
  {
    MkdirFails(c, dst0, src0) || !c.env.isDir(PairSource(c, src0))
  }

  /** A pair whose checks pass: its destination exists or can be made, and
      its source is a directory. */
  predicate Passes(c: JobContext, src: string, dst: string)
  {
    !MkdirFailsAt(c, dst) && c.env.isDir(src)
  }

  /** The running outcome after one pair with its paths resolved, when `n`
      processes were started before it: a failed check raises to ERROR, a
      pair that passes outside dummy mode classifies the exit code of the
      process it starts. */
  function PairOutcome(c: JobContext, o: Outcome, n: nat, src: string, dst: string): Outcome
  {
    if MkdirFailsAt(c, dst) then Raise(o, Error, MkdirMessage(dst))
    else if !c.env.isDir(src) then Raise(o, Error, NoSourceMessage(src))
    else if c.dummy then o
    else Classify(c.cfg.backend, o, c.exitCode(c.first + n), c.job.robocopyIgnore)
  }

  /** The vector a pair starts: the job's command with both paths in the
      backend's convention, where the backend expects them. */
  function LaunchVector(c: JobContext, src: string, dst: string): seq<string>
    requires c.cmd != []
  {
    var backend, sep := c.cfg.backend, c.cfg.separator;
    Invocation(backend, c.cmd, Convention(backend, src, sep), Convention(backend, dst, sep))
  }

  /** What one pair starts: its vector when it passes outside dummy mode,
      nothing otherwise. */
  function PairLaunches(c: JobContext, src: string, dst: string): seq<seq<string>>
    requires c.cmd != []
  {
    if Passes(c, src, dst) && !c.dummy then [LaunchVector(c, src, dst)] else []
  }

  /** One pair with its paths resolved. */
  function PairStepAt(c: JobContext, p: Progress, src: string, dst: string): Progress
    requires c.cmd != []
  {
    Progress(PairOutcome(c, p.outcome, |p.launched|, src, dst), p.launched + PairLaunches(c, src, dst))
  }

  /** One declared (destination root, source) pair. */
  function PairStep(c: JobContext, p: Progress, dst0: string, src0: string): Progress
    requires c.cmd != []
  {
    PairStepAt(c, p, PairSource(c, src0), PairDestination(c, dst0, src0))
  }

  /** A pair that passes its checks outside dummy mode starts exactly its
      own vector. */
  lemma PairStepLaunches(c: JobContext, p: Progress, dst0: string, src0: string)
    requires c.cmd != [] && !c.dummy && !PairFails(c, dst0, src0)
    ensures PairStep(c, p, dst0, src0).launched
         == p.launched + [LaunchVector(c, PairSource(c, src0), PairDestination(c, dst0, src0))]
  {
    PassingPairLaunches(c, p.outcome, |p.launched|, PairSource(c, src0), PairDestination(c, dst0, src0));
  }

  /** A pair that passes its checks and whose process exits with 0 keeps the
      job's outcome. */
  lemma PairStepZeroCode(c: JobContext, p: Progress, dst0: string, src0: string)
    requires c.cmd != [] && !c.dummy && !PairFails(c, dst0, src0)
    requires c.exitCode(c.first + |p.launched|) == 0
    ensures PairStep(c, p, dst0, src0).outcome == p.outcome
  {
    PassingZeroCode(c, p.outcome, |p.launched|, PairSource(c, src0), PairDestination(c, dst0, src0));
  }

  /** `PairStepZeroCode` for resolved paths. */
  lemma PassingZeroCode(c: JobContext, o: Outcome, n: nat, src: string, dst: string)
    requires c.cmd != [] && !c.dummy && Passes(c, src, dst) && c.exitCode(c.first + n) == 0
    ensures PairOutcome(c, o, n, src, dst) == o
  {
    ZeroCodeKeeps(c.cfg.backend, o, c.job.robocopyIgnore);
  }

  /** `PairStepLaunches` for resolved paths, after `n` started processes. */
  lemma PassingPairLaunches(c: JobContext, o: Outcome, n: nat, src: string, dst: string)
    requires c.cmd != [] && !c.dummy && Passes(c, src, dst)
    ensures PairOutcome(c, o, n, src, dst) == Classify(c.cfg.backend, o, c.exitCode(c.first + n), c.job.robocopyIgnore)
    ensures PairLaunches(c, src, dst) == [LaunchVector(c, src, dst)]
  {
    assert !MkdirFailsAt(c, dst) && c.env.isDir(src);
  }

  /** The pairs of one destination root with the given sources, in order. */
  function RunSources(c: JobContext, dst0: string, srcs: seq<string>, p: Progress): Progress
    requires c.cmd != []
  {
    if srcs == [] then p
    else PairStep(c, RunSources(c, dst0, srcs[..|srcs| - 1], p), dst0, srcs[|srcs| - 1])
  }

  /** All pairs of the given destination roots with the job's sources. */
  function RunPairs(c: JobContext, dsts: seq<string>): Progress
    requires c.cmd != [] && Normalized(c.job)
  {
    if dsts == [] then Progress(Start, [])
    else RunSources(c, dsts[|dsts| - 1], c.job.src.paths, RunPairs(c, dsts[..|dsts| - 1]))
  }

  /** A job that must not run on this platform. */
  predicate PlatformMismatch(cfg: Settings, job: Job)
  {
    (job.windowsOnly && !cfg.windows) || (job.linuxOnly && cfg.windows)
  }

  function Context(cfg: Settings, env: Env, job: Job, dummy: bool, exitCode: nat -> int, first: nat): JobContext
  {
    JobContext(cfg, env, job, dummy, exitCode, first, Command(cfg, job))
  }

  /** The whole job: the platform guard, then every (destination, source)
      pair, destinations outermost. */
  function JobRun(cfg: Settings, env: Env, job: Job, dummy: bool, exitCode: nat -> int, first: nat): Progress
    requires Normalized(job)
  {
    if job.windowsOnly && !cfg.windows then
      Progress(Outcome(Warn, PlatformMessage(job.name, "windows only")), [])
    else if job.linuxOnly && cfg.windows then
      Progress(Outcome(Warn, PlatformMessage(job.name, "linux only")), [])
    else RunPairs(Context(cfg, env, job, dummy, exitCode, first), job.dst.paths)
  }

  /** The path steps of one pair, one string operation at a time. */
  method ResolvePaths(sep: char, lefttrim: int, dstRoot: string, source: string) returns (root: string, src: string, dst: string)
    ensures root == NativeSeparators(dstRoot, sep)
    ensures src == NativeSeparators(source, sep)
    ensures dst == Destination(root, src, lefttrim, sep)
  {
    var dst0, src0 := dstRoot, source;
    if sep != '/' {
      dst0 := ReplaceChar(dst0, '/', sep);
      src0 := ReplaceChar(src0, '/', sep);
    }
    if sep != '\\' {
      dst0 := ReplaceChar(dst0, '\\', sep);
      src0 := ReplaceChar(src0, '\\', sep);
    }
    root, src := dst0, src0;
    var dst2;
    if lefttrim != 0 {
      dst2 := JoinWith(SliceFrom(NonEmptyOnly(SplitOn(src0, sep)), lefttrim), sep);
    } else {
      dst2 := src0;
    }
    dst2 := DeleteChar(dst2, ':');
    dst := StripRight(dst0, sep) + [sep] + dst2;
  }

  /** Raises the running severity and message for one exit code. */
  method ApplyExitCode(backend: Backend, code: int, ignore: bool, severity: Severity, message: string)
    returns (errSeverity: Severity, errStr: string)
    ensures Outcome(errSeverity, errStr) == Classify(backend, Outcome(severity, message), code, ignore)
  {
    errSeverity, errStr := severity, message;
    if backend.Robocopy? {
      if HasBit(code, 16) && Level(Severe) > Level(errSeverity) {
        errSeverity := Severe;
        errStr := SeriousMessage;
      }
      if HasBit(code, 4) && Level(Error) > Level(errSeverity) {
        errSeverity := Error;
        errStr := MismatchMessage;
      }
      if HasBit(code, 8) && Level(Warn) > Level(errSeverity) {
        if !ignore {
          errSeverity := Warn;
          errStr := FailedCopyMessage;
        }
      }
    } else {
      if code > 0 && Level(Error) > Level(errSeverity) {
        errSeverity := Error;
        errStr := RsyncMessage(code);
      }
    }
  }

  /** The vector for one pair: both paths stripped of trailing separators,
      given one back for rsync, and put where the backend expects them. */
  method BuildInvocation(backend: Backend, cmd: seq<string>, sep: char, src: string, dst: string) returns (cmdx: seq<string>)
    requires cmd != []
    ensures cmdx == Invocation(backend, cmd, Convention(backend, src, sep), Convention(backend, dst, sep))
  {
    var src1 := StripRight(src, sep);
    var dst1 := StripRight(dst, sep);
    if backend.Rsync? {
      src1 := src1 + [sep];
      dst1 := dst1 + [sep];
    }
    if backend.Robocopy? {
      cmdx := [cmd[0]] + [src1, dst1] + cmd[1..];
    } else {
      cmdx := cmd + [src1, dst1];
    }
  }

  /** The checks of one pair whose paths are resolved; an early return
      stands for the inner loop's `continue`. */
  method CheckAndLaunch(c: JobContext, src: string, dst: string, severity: Severity, message: string, started: seq<seq<string>>)
    returns (errSeverity: Severity, errStr: string, launched: seq<seq<string>>)
    requires c.cmd != []
    ensures Progress(Outcome(errSeverity, errStr), launched) == PairStepAt(c, Progress(Outcome(severity, message), started), src, dst)
  {
    errSeverity, errStr, launched := severity, message, started;
    ghost var o := Outcome(severity, message);
    if !c.dummy && !c.env.isDir(dst) {
      if !c.env.makeDirs(dst) {
        assert MkdirFailsAt(c, dst);
        if Level(Error) > Level(errSeverity) {
          errSeverity := Error;
          errStr := MkdirMessage(dst);
        }
        assert Outcome(errSeverity, errStr) == Raise(o, Error, MkdirMessage(dst));
        return;
      }
    }
    assert !MkdirFailsAt(c, dst);
    if !c.env.isDir(src) {
      if Level(Error) > Level(errSeverity) {
        errSeverity := Error;
        errStr := NoSourceMessage(src);
      }
      assert Outcome(errSeverity, errStr) == Raise(o, Error, NoSourceMessage(src));
      return;
    }
    errSeverity, errStr, launched := Launch(c, src, dst, severity, message, started);
  }

  /** A pair that passed its checks: build its vector and, outside dummy
      mode, start it and classify its exit code. */
  method Launch(c: JobContext, src: string, dst: string, severity: Severity, message: string, started: seq<seq<string>>)
    returns (errSeverity: Severity, errStr: string, launched: seq<seq<string>>)
    requires c.cmd != [] && Passes(c, src, dst)
    ensures Progress(Outcome(errSeverity, errStr), launched) == PairStepAt(c, Progress(Outcome(severity, message), started), src, dst)
  {
    errSeverity, errStr, launched := severity, message, started;
    ghost var o := Outcome(severity, message);
    var cmdx := BuildInvocation(c.cfg.backend, c.cmd, c.cfg.separator, src, dst);
    if c.dummy {
      assert PairOutcome(c, o, |started|, src, dst) == o;
      assert PairLaunches(c, src, dst) == [];
      return;
    }
    var code := c.exitCode(c.first + |launched|);
    launched := launched + [cmdx];
    errSeverity, errStr := ApplyExitCode(c.cfg.backend, code, c.job.robocopyIgnore, errSeverity, errStr);
    PassingPairLaunches(c, o, |started|, src, dst);
  }

  /** One pass of the inner loop of `do_job`. The destination root comes
      back rewritten, since the loop variable itself is reassigned. */
  method RunPair(c: JobContext, dstRoot: string, source: string, severity: Severity, message: string, started: seq<seq<string>>)
    returns (errSeverity: Severity, errStr: string, launched: seq<seq<string>>, root: string)
    requires c.cmd != []
    ensures root == NativeSeparators(dstRoot, c.cfg.separator)
    ensures Progress(Outcome(errSeverity, errStr), launched) == PairStep(c, Progress(Outcome(severity, message), started), dstRoot, source)
  {
    var src, dst;
    root, src, dst := ResolvePaths(c.cfg.separator, c.job.lefttrim, dstRoot, source);
    errSeverity, errStr, launched := CheckAndLaunch(c, src, dst, severity, message, started);
  }

  /** A pair depends on its destination root only through the root's
      rewritten form. */
  lemma SameRootSameStep(c: JobContext, p: Progress, d1: string, d2: string, src0: string)
    requires c.cmd != [] && NativeSeparators(d1, c.cfg.separator) == NativeSeparators(d2, c.cfg.separator)
    ensures PairStep(c, p, d1, src0) == PairStep(c, p, d2, src0)
  {
    assert PairDestination(c, d1, src0) == PairDestination(c, d2, src0);
  }

  /** Rewriting an already rewritten root changes nothing, so the loop may
      keep reassigning it. */
  lemma SeparatorsIdempotent(p: string, sep: char)
    ensures NativeSeparators(NativeSeparators(p, sep), sep) == NativeSeparators(p, sep)
  {
    SeparatorAgnostic(p, p, sep);
  }

  /** The inner loop of `do_job`: every source with one destination root. */
  method RunDestination(c: JobContext, dstRoot: string, severity: Severity, message: string, started: seq<seq<string>>)
    returns (errSeverity: Severity, errStr: string, launched: seq<seq<string>>)
    requires c.cmd != [] && Normalized(c.job)
    ensures Progress(Outcome(errSeverity, errStr), launched)
         == RunSources(c, dstRoot, c.job.src.paths, Progress(Outcome(severity, message), started))
  {
    ghost var before := Progress(Outcome(severity, message), started);
    errSeverity, errStr, launched := severity, message, started;
    var srcs := c.job.src.paths;
    var dst0 := dstRoot;
    for j := 0 to |srcs|
      invariant NativeSeparators(dst0, c.cfg.separator) == NativeSeparators(dstRoot, c.cfg.separator)
      invariant Progress(Outcome(errSeverity, errStr), launched) == RunSources(c, dstRoot, srcs[..j], before)
    {
      SourcesUnfold(c, dstRoot, srcs, j, before);
      SameRootSameStep(c, Progress(Outcome(errSeverity, errStr), launched), dst0, dstRoot, srcs[j]);
      errSeverity, errStr, launched, dst0 := RunPair(c, dst0, srcs[j], errSeverity, errStr, launched);
      SeparatorsIdempotent(dstRoot, c.cfg.separator);
    }
    assert srcs[..|srcs|] == srcs;
  }

  /** One more source is one more pair step. */
  lemma SourcesUnfold(c: JobContext, dst0: string, srcs: seq<string>, j: nat, p: Progress)
    requires c.cmd != [] && j < |srcs|
    ensures RunSources(c, dst0, srcs[..j + 1], p) == PairStep(c, RunSources(c, dst0, srcs[..j], p), dst0, srcs[j])
  {
    assert srcs[..j + 1][..j] == srcs[..j];
  }

  /** Runs one job: the platform guard, then the loop over the destination
      roots around the loop over the sources. */
  method DoJob(cfg: Settings, env: Env, job: Job, dummy: bool, exitCode: nat -> int, first: nat)
    returns (outcome: Outcome, launched: seq<seq<string>>)
    requires Normalized(job)
    ensures Progress(outcome, launched) == JobRun(cfg, env, job, dummy, exitCode, first)
  {
    if job.windowsOnly && !cfg.windows {
      return Outcome(Warn, PlatformMessage(job.name, "windows only")), [];
    }
    if job.linuxOnly && cfg.windows {
      return Outcome(Warn, PlatformMessage(job.name, "linux only")), [];
    }
    var cmd := BuildCommand(cfg, job);
    var c := JobContext(cfg, env, job, dummy, exitCode, first, cmd);
    assert c == Context(cfg, env, job, dummy, exitCode, first);
    var errStr, errSeverity := "OK!", Good;
    launched := [];
    var dsts := job.dst.paths;
    for i := 0 to |dsts|
      invariant Progress(Outcome(errSeverity, errStr), launched) == RunPairs(c, dsts[..i])
    {
      assert dsts[..i + 1][..i] == dsts[..i];
      errSeverity, errStr, launched := RunDestination(c, dsts[i], errSeverity, errStr, launched);
    }
    assert dsts[..|dsts|] == dsts;
    outcome := Outcome(errSeverity, errStr);
  }

  // Properties of a job run.

  /** A job for the other platform is reported as WARN and starts nothing. */
  lemma JobGuard(cfg: Settings, env: Env, job: Job, dummy: bool, exitCode: nat -> int, first: nat)
    requires Normalized(job) && PlatformMismatch(cfg, job)
    ensures JobRun(cfg, env, job, dummy, exitCode, first).outcome.severity == Warn
    ensures JobRun(cfg, env, job, dummy, exitCode, first).launched == []
  {
  }

  /** One pair never lowers the severity, and it keeps the message unless it
      raises the severity strictly. Its severity is the more severe of the
      running one and the one the pair would give on its own, so a job's
      severity is the maximum over its pairs. */
  lemma PairIsMax(c: JobContext, p: Progress, dst0: string, src0: string)
    requires c.cmd != []
    ensures StepIsMax(p, PairStep(c, p, dst0, src0), PairStep(c, Progress(Start, p.launched), dst0, src0))
  {
    PairAtIsMax(c, p, PairSource(c, src0), PairDestination(c, dst0, src0));
  }

  lemma PairAtIsMax(c: JobContext, p: Progress, src: string, dst: string)
    requires c.cmd != []
    ensures StepIsMax(p, PairStepAt(c, p, src, dst), PairStepAt(c, Progress(Start, p.launched), src, dst))
  {
    OutcomeIsMax(c, p.outcome, |p.launched|, src, dst);
  }

  /** A pair's outcome is the more severe of the running one and the one it
      gives from GOOD, and keeps the message unless the severity rose. */
  lemma OutcomeIsMax(c: JobContext, o: Outcome, n: nat, src: string, dst: string)
    ensures PairOutcome(c, o, n, src, dst).severity == Max(o.severity, PairOutcome(c, Start, n, src, dst).severity)
    ensures PairOutcome(c, o, n, src, dst).severity == o.severity ==> PairOutcome(c, o, n, src, dst) == o
  {
    if MkdirFailsAt(c, dst) {
      RaiseIsMax(o, Error, MkdirMessage(dst));
    } else if !c.env.isDir(src) {
      RaiseIsMax(o, Error, NoSourceMessage(src));
    } else if !c.dummy {
      ClassifyIsMax(c.cfg.backend, o, c.exitCode(c.first + n), c.job.robocopyIgnore);
    }
  }

  /** `q` follows `p` by one pair whose own effect, started from GOOD with the
      same processes already started, is `alone`: the severity is the more
      severe of the two, the message stays unless the severity rose, and the
      pair starts the same processes either way. */
  predicate StepIsMax(p: Progress, q: Progress, alone: Progress)
  {
    && q.outcome.severity == Max(p.outcome.severity, alone.outcome.severity)
    && (q.outcome.severity == p.outcome.severity ==> q.outcome == p.outcome)
    && q.launched == alone.launched
  }

  lemma RaiseIsMax(o: Outcome, s: Severity, msg: string)
    ensures Raise(o, s, msg).severity == Max(o.severity, Raise(Start, s, msg).severity)
    ensures Raise(o, s, msg).severity == o.severity ==> Raise(o, s, msg) == o
  {
  }

  /** Classifying an exit code raises the outcome to the code's own
      severity, and keeps the message unless that is strictly more severe. */
  lemma ClassifyIsMax(backend: Backend, o: Outcome, code: int, ignore: bool)
    ensures Classify(backend, o, code, ignore).severity == Max(o.severity, Classify(backend, Start, code, ignore).severity)
    ensures Classify(backend, o, code, ignore).severity == o.severity ==> Classify(backend, o, code, ignore) == o
  {
  }

  /** A pair whose destination cannot be made or whose source is missing
      raises the job to at least ERROR and starts nothing; the loop goes on
      with the next pair. */
  lemma FailedPairSkipped(c: JobContext, p: Progress, dst0: string, src0: string)
    requires c.cmd != [] && PairFails(c, dst0, src0)
    ensures Level(PairStep(c, p, dst0, src0).outcome.severity) >= Level(Error)
    ensures PairStep(c, p, dst0, src0).launched == p.launched
  {
  }

  /** In dummy mode a pair starts nothing. */
  lemma DummyPairLaunchesNothing(c: JobContext, p: Progress, dst0: string, src0: string)
    requires c.cmd != [] && c.dummy
    ensures PairStep(c, p, dst0, src0).launched == p.launched
  {
  }

  lemma {:induction false} SourcesMonotone(c: JobContext, dst0: string, srcs: seq<string>, p: Progress)
    requires c.cmd != []
    ensures Level(RunSources(c, dst0, srcs, p).outcome.severity) >= Level(p.outcome.severity)
  {
    if srcs != [] {
      SourcesMonotone(c, dst0, srcs[..|srcs| - 1], p);
      PairIsMax(c, RunSources(c, dst0, srcs[..|srcs| - 1], p), dst0, srcs[|srcs| - 1]);
    }
  }

  lemma {:induction false} SourcesHitError(c: JobContext, dst0: string, srcs: seq<string>, p: Progress, j: nat)
    requires c.cmd != [] && j < |srcs| && PairFails(c, dst0, srcs[j])
    ensures Level(RunSources(c, dst0, srcs, p).outcome.severity) >= Level(Error)
  {
    var init := srcs[..|srcs| - 1];
    if j == |srcs| - 1 {
      FailedPairSkipped(c, RunSources(c, dst0, init, p), dst0, srcs[j]);
    } else {
      assert init[j] == srcs[j];
      SourcesHitError(c, dst0, init, p, j);
      PairIsMax(c, RunSources(c, dst0, init, p), dst0, srcs[|srcs| - 1]);
    }
  }

  lemma {:induction false} PairsHitError(c: JobContext, dsts: seq<string>, i: nat, j: nat)
    requires c.cmd != [] && Normalized(c.job)
    requires i < |dsts| && j < |c.job.src.paths| && PairFails(c, dsts[i], c.job.src.paths[j])
    ensures Level(RunPairs(c, dsts).outcome.severity) >= Level(Error)
  {
    var init := dsts[..|dsts| - 1];
    if i == |dsts| - 1 {
      SourcesHitError(c, dsts[i], c.job.src.paths, RunPairs(c, init), j);
    } else {
      assert init[i] == dsts[i];
      PairsHitError(c, init, i, j);
      SourcesMonotone(c, dsts[|dsts| - 1], c.job.src.paths, RunPairs(c, init));
    }
  }

  /** One failing (destination, source) pair is enough for the job to end at
      ERROR or worse. */
  lemma FailedPairIsError(cfg: Settings, env: Env, job: Job, dummy: bool, exitCode: nat -> int, first: nat, i: nat, j: nat)
    requires Normalized(job) && !PlatformMismatch(cfg, job)
    requires i < |job.dst.paths| && j < |job.src.paths|
    requires PairFails(Context(cfg, env, job, dummy, exitCode, first), job.dst.paths[i], job.src.paths[j])
    ensures Level(JobRun(cfg, env, job, dummy, exitCode, first).outcome.severity) >= Level(Error)
  {
    PairsHitError(Context(cfg, env, job, dummy, exitCode, first), job.dst.paths, i, j);
  }

  /** The severity each of the given sources gives on its own, in order:
      entry j is source j's outcome from GOOD, at the launch index the
      sources before it leave. */
  function SourceAlones(c: JobContext, dst0: string, srcs: seq<string>, p: Progress): (r: seq<Severity>)
    requires c.cmd != []
    ensures |r| == |srcs|
  {
    seq(|srcs|, j requires 0 <= j < |srcs| =>
      PairStep(c, Progress(Start, RunSources(c, dst0, srcs[..j], p).launched), dst0, srcs[j]).outcome.severity)
  }

  /** The own severities of all sources but the last are those of the
      shorter list. */
  lemma SourceAlonesInit(c: JobContext, dst0: string, srcs: seq<string>, p: Progress)
    requires c.cmd != [] && srcs != []
    ensures SourceAlones(c, dst0, srcs, p)[..|srcs| - 1] == SourceAlones(c, dst0, srcs[..|srcs| - 1], p)
  {
    var init := srcs[..|srcs| - 1];
    forall j | 0 <= j < |init|
      ensures SourceAlones(c, dst0, srcs, p)[j] == SourceAlones(c, dst0, init, p)[j]
    {
      assert srcs[..j] == init[..j] && srcs[j] == init[j];
    }
  }

  /** Along one destination's sources the severity is the running maximum
      of the starting severity and each source's own severity. */
  lemma {:induction false} SourcesMax(c: JobContext, dst0: string, srcs: seq<string>, p: Progress)
    requires c.cmd != []
    ensures RunSources(c, dst0, srcs, p).outcome.severity == MaxAll(p.outcome.severity, SourceAlones(c, dst0, srcs, p))
  {
    if srcs != [] {
      var init := srcs[..|srcs| - 1];
      SourcesMax(c, dst0, init, p);
      SourceAlonesInit(c, dst0, srcs, p);
      PairIsMax(c, RunSources(c, dst0, init, p), dst0, srcs[|srcs| - 1]);
    }
  }

  /** The severity of pair (i, j) on its own: source j of root i, from GOOD,
      after every pair of the roots before i and the sources before j. */
  function PairAlone(c: JobContext, dsts: seq<string>, i: nat, j: nat): Severity
    requires c.cmd != [] && Normalized(c.job) && i < |dsts| && j < |c.job.src.paths|
  {
    SourceAlones(c, dsts[i], c.job.src.paths, RunPairs(c, dsts[..i]))[j]
  }

  /** Across the destination roots the severity never decreases: the run
      over all roots is at least as severe as over any first k of them. */
  lemma {:induction false} PairsMonotone(c: JobContext, dsts: seq<string>, k: nat)
    requires c.cmd != [] && Normalized(c.job) && k <= |dsts|
    ensures Level(RunPairs(c, dsts).outcome.severity) >= Level(RunPairs(c, dsts[..k]).outcome.severity)
  {
    if k < |dsts| {
      var init := dsts[..|dsts| - 1];
      assert init[..k] == dsts[..k];
      PairsMonotone(c, init, k);
      SourcesMonotone(c, dsts[|dsts| - 1], c.job.src.paths, RunPairs(c, init));
    } else {
      assert dsts[..k] == dsts;
    }
  }

  /** Every pair's own severity bounds the severity over all pairs. */
  lemma PairsBound(c: JobContext, dsts: seq<string>, i: nat, j: nat)
    requires c.cmd != [] && Normalized(c.job) && i < |dsts| && j < |c.job.src.paths|
    ensures Level(RunPairs(c, dsts).outcome.severity) >= Level(PairAlone(c, dsts, i, j))
  {
    var before := dsts[..i];
    assert dsts[..i + 1][..i] == before;
    SourcesMax(c, dsts[i], c.job.src.paths, RunPairs(c, before));
    MaxAllBounds(RunPairs(c, before).outcome.severity, SourceAlones(c, dsts[i], c.job.src.paths, RunPairs(c, before)));
    PairsMonotone(c, dsts, i + 1);
  }

  /** The severity over all pairs is GOOD or the own severity of one pair. */
  lemma {:induction false} PairsAttained(c: JobContext, dsts: seq<string>)
    requires c.cmd != [] && Normalized(c.job)
    ensures var s := RunPairs(c, dsts).outcome.severity;
      s == Good || exists i, j :: 0 <= i < |dsts| && 0 <= j < |c.job.src.paths| && s == PairAlone(c, dsts, i, j)
  {
    if dsts != [] {
      var init, last, srcs := dsts[..|dsts| - 1], |dsts| - 1, c.job.src.paths;
      PairsAttained(c, init);
      var q := RunPairs(c, init);
      var xs := SourceAlones(c, dsts[last], srcs, q);
      SourcesMax(c, dsts[last], srcs, q);
      MaxAllBounds(q.outcome.severity, xs);
      var s := RunPairs(c, dsts).outcome.severity;
      if s == q.outcome.severity {
        if s != Good {
          var i, j :| 0 <= i < |init| && 0 <= j < |srcs| && s == PairAlone(c, init, i, j);
          PairAloneAgrees(c, dsts, i, j);
        }
      } else {
        var j :| 0 <= j < |srcs| && s == xs[j];
        PairAloneLast(c, dsts, j);
      }
    }
  }

  /** A pair of an earlier root has the same own severity whether or not
      the last root is present. */
  lemma PairAloneAgrees(c: JobContext, dsts: seq<string>, i: nat, j: nat)
    requires c.cmd != [] && Normalized(c.job) && i + 1 < |dsts| && j < |c.job.src.paths|
    ensures PairAlone(c, dsts[..|dsts| - 1], i, j) == PairAlone(c, dsts, i, j)
  {
    var init := dsts[..|dsts| - 1];
    assert dsts[..i] == init[..i] && dsts[i] == init[i];
  }

  lemma PairAloneLast(c: JobContext, dsts: seq<string>, j: nat)
    requires c.cmd != [] && Normalized(c.job) && dsts != [] && j < |c.job.src.paths|
    ensures PairAlone(c, dsts, |dsts| - 1, j)
         == SourceAlones(c, dsts[|dsts| - 1], c.job.src.paths, RunPairs(c, dsts[..|dsts| - 1]))[j]
  {
  }

  /** A job that runs ends at the maximum over its pairs: at least the own
      severity of every declared (destination, source) pair, and either GOOD
      or the own severity of one of them. */
  lemma JobIsMax(cfg: Settings, env: Env, job: Job, dummy: bool, exitCode: nat -> int, first: nat)
    requires Normalized(job) && !PlatformMismatch(cfg, job)
    ensures var c, s := Context(cfg, env, job, dummy, exitCode, first), JobRun(cfg, env, job, dummy, exitCode, first).outcome.severity;
      && (forall i, j :: 0 <= i < |job.dst.paths| && 0 <= j < |job.src.paths| ==> Level(s) >= Level(PairAlone(c, job.dst.paths, i, j)))
      && (s == Good || exists i, j :: 0 <= i < |job.dst.paths| && 0 <= j < |job.src.paths| && s == PairAlone(c, job.dst.paths, i, j))
  {
    var c := Context(cfg, env, job, dummy, exitCode, first);
    forall i, j | 0 <= i < |job.dst.paths| && 0 <= j < |job.src.paths|
      ensures Level(RunPairs(c, job.dst.paths).outcome.severity) >= Level(PairAlone(c, job.dst.paths, i, j))
    {
      PairsBound(c, job.dst.paths, i, j);
    }
    PairsAttained(c, job.dst.paths);
  }

  lemma {:induction false} SourcesDummy(c: JobContext, dst0: string, srcs: seq<string>, p: Progress)
    requires c.cmd != [] && c.dummy
    ensures RunSources(c, dst0, srcs, p).launched == p.launched
  {
    if srcs != [] {
      SourcesDummy(c, dst0, srcs[..|srcs| - 1], p);
      DummyPairLaunchesNothing(c, RunSources(c, dst0, srcs[..|srcs| - 1], p), dst0, srcs[|srcs| - 1]);
    }
  }

  lemma {:induction false} PairsDummy(c: JobContext, dsts: seq<string>)
    requires c.cmd != [] && Normalized(c.job) && c.dummy
    ensures RunPairs(c, dsts).launched == []
  {
    if dsts != [] {
      PairsDummy(c, dsts[..|dsts| - 1]);
      SourcesDummy(c, dsts[|dsts| - 1], c.job.src.paths, RunPairs(c, dsts[..|dsts| - 1]));
    }
  }

  /** Dummy mode starts no process, so it consumes no exit code. */
  lemma DummyLaunchesNothing(cfg: Settings, env: Env, job: Job, exitCode: nat -> int, first: nat)
    requires Normalized(job)
    ensures JobRun(cfg, env, job, true, exitCode, first).launched == []
  {
    if !PlatformMismatch(cfg, job) {
      PairsDummy(Context(cfg, env, job, true, exitCode, first), job.dst.paths);
    }
  }

  /** No pair of this destination root with these sources fails. */
  ghost predicate SourcesPass(c: JobContext, dst0: string, srcs: seq<string>)
  {
    forall j :: 0 <= j < |srcs| ==> !PairFails(c, dst0, srcs[j])
  }

  /** The backend returns 0 for the `n` processes started from number `from`. */
  ghost predicate ZeroCodes(c: JobContext, from: nat, n: nat)
  {
    forall k :: from <= k < from + n ==> c.exitCode(k) == 0
  }

  lemma ZeroCodeKeeps(backend: Backend, o: Outcome, ignore: bool)
    ensures Classify(backend, o, 0, ignore) == o
  {
  }

  lemma {:induction false} SourcesHappy(c: JobContext, dst0: string, srcs: seq<string>, p: Progress)
    requires c.cmd != [] && !c.dummy && SourcesPass(c, dst0, srcs)
    requires ZeroCodes(c, c.first + |p.launched|, |srcs|)
    ensures RunSources(c, dst0, srcs, p).outcome == p.outcome
    ensures |RunSources(c, dst0, srcs, p).launched| == |p.launched| + |srcs|
  {
    if srcs != [] {
      var init := srcs[..|srcs| - 1];
      assert SourcesPass(c, dst0, init) by {
        forall j | 0 <= j < |init| ensures !PairFails(c, dst0, init[j]) {
          assert init[j] == srcs[j];
        }
      }
      SourcesHappy(c, dst0, init, p);
      var q := RunSources(c, dst0, init, p);
      PairStepLaunches(c, q, dst0, srcs[|srcs| - 1]);
      assert c.exitCode(c.first + |q.launched|) == 0;
      PairStepZeroCode(c, q, dst0, srcs[|srcs| - 1]);
    }
  }

  lemma {:induction false} PairsHappy(c: JobContext, dsts: seq<string>)
    requires c.cmd != [] && Normalized(c.job) && !c.dummy
    requires forall i :: 0 <= i < |dsts| ==> SourcesPass(c, dsts[i], c.job.src.paths)
    requires ZeroCodes(c, c.first, |dsts| * |c.job.src.paths|)
    ensures RunPairs(c, dsts).outcome == Start
    ensures |RunPairs(c, dsts).launched| == |dsts| * |c.job.src.paths|
  {
    if dsts != [] {
      var init := dsts[..|dsts| - 1];
      var m := |c.job.src.paths|;
      assert |init| * m + m == |dsts| * m;
      assert forall i :: 0 <= i < |init| ==> init[i] == dsts[i];
      PairsHappy(c, init);
      SourcesHappy(c, dsts[|dsts| - 1], c.job.src.paths, RunPairs(c, init));
    }
  }

  /** When every directory is in place and every backend run returns 0, the
      job starts one process per (destination, source) pair and ends GOOD
      with "OK!". */
  lemma HappyPath(cfg: Settings, env: Env, job: Job, exitCode: nat -> int, first: nat)
    requires Normalized(job) && !PlatformMismatch(cfg, job)
    requires forall i :: 0 <= i < |job.dst.paths| ==>
               SourcesPass(Context(cfg, env, job, false, exitCode, first), job.dst.paths[i], job.src.paths)
    requires forall k :: first <= k < first + |job.dst.paths| * |job.src.paths| ==> exitCode(k) == 0
    ensures JobRun(cfg, env, job, false, exitCode, first).outcome == Start
    ensures |JobRun(cfg, env, job, false, exitCode, first).launched| == |job.dst.paths| * |job.src.paths|
  {
    PairsHappy(Context(cfg, env, job, false, exitCode, first), job.dst.paths);
  }

  /** A path as the backend gets it: for robocopy without a trailing
      separator, for rsync with exactly one. */
  predicate Conventional(backend: Backend, path: string, sep: char)
  {
    if backend.Robocopy? then path == [] || path[|path| - 1] != sep
    else |path| >= 1 && path[|path| - 1] == sep && (|path| == 1 || path[|path| - 2] != sep)
  }

  /** A started argument vector: the job's command with the source and the
      destination added where the backend expects them, both following the
      backend's trailing-separator convention. */
  predicate WellFormedLaunch(c: JobContext, v: seq<string>)
    requires c.cmd != []
  {
    var backend, sep, n := c.cfg.backend, c.cfg.separator, |c.cmd|;
    && |v| == n + 2
    && (backend.Robocopy? ==>
          v[0] == c.cmd[0] && v[3..] == c.cmd[1..] && Conventional(backend, v[1], sep) && Conventional(backend, v[2], sep))
    && (backend.Rsync? ==>
          v[..n] == c.cmd && Conventional(backend, v[n], sep) && Conventional(backend, v[n + 1], sep))
  }

  ghost predicate AllWellFormed(c: JobContext, vs: seq<seq<string>>)
    requires c.cmd != []
  {
    forall k :: 0 <= k < |vs| ==> WellFormedLaunch(c, vs[k])
  }

  /** Any two paths, put through the convention, give a well-formed vector. */
  lemma InvocationWellFormed(c: JobContext, srcPath: string, dstPath: string)
    requires c.cmd != []
    ensures WellFormedLaunch(c, LaunchVector(c, srcPath, dstPath))
  {
    var backend, sep := c.cfg.backend, c.cfg.separator;
    var src, dst := Convention(backend, srcPath, sep), Convention(backend, dstPath, sep);
    InvocationShape(backend, c.cmd, src, dst);
    ConventionShape(backend, srcPath, sep);
    ConventionShape(backend, dstPath, sep);
  }

  lemma PairLaunchWellFormed(c: JobContext, p: Progress, dst0: string, src0: string)
    requires c.cmd != [] && AllWellFormed(c, p.launched)
    ensures AllWellFormed(c, PairStep(c, p, dst0, src0).launched)
  {
    if !PairFails(c, dst0, src0) && !c.dummy {
      var v := LaunchVector(c, PairSource(c, src0), PairDestination(c, dst0, src0));
      PairStepLaunches(c, p, dst0, src0);
      InvocationWellFormed(c, PairSource(c, src0), PairDestination(c, dst0, src0));
      var vs := p.launched + [v];
      assert PairStep(c, p, dst0, src0).launched == vs;
      forall k | 0 <= k < |vs| ensures WellFormedLaunch(c, vs[k]) {
        if k < |p.launched| {
          assert vs[k] == p.launched[k];
        }
      }
    }
  }

  lemma {:induction false} SourcesWellFormed(c: JobContext, dst0: string, srcs: seq<string>, p: Progress)
    requires c.cmd != [] && AllWellFormed(c, p.launched)
    ensures AllWellFormed(c, RunSources(c, dst0, srcs, p).launched)
  {
    if srcs != [] {
      SourcesWellFormed(c, dst0, srcs[..|srcs| - 1], p);
      PairLaunchWellFormed(c, RunSources(c, dst0, srcs[..|srcs| - 1], p), dst0, srcs[|srcs| - 1]);
    }
  }

  lemma {:induction false} PairsWellFormed(c: JobContext, dsts: seq<string>)
    requires c.cmd != [] && Normalized(c.job)
    ensures AllWellFormed(c, RunPairs(c, dsts).launched)
  {
    if dsts != [] {
      PairsWellFormed(c, dsts[..|dsts| - 1]);
      SourcesWellFormed(c, dsts[|dsts| - 1], c.job.src.paths, RunPairs(c, dsts[..|dsts| - 1]));
    }
  }

  /** Every process a job starts runs the job's command with two paths in
      the backend's position and convention. */
  lemma LaunchedShape(cfg: Settings, env: Env, job: Job, dummy: bool, exitCode: nat -> int, first: nat)
    requires Normalized(job)
    ensures var c := Context(cfg, env, job, dummy, exitCode, first);
      c.cmd != [] && AllWellFormed(c, JobRun(cfg, env, job, dummy, exitCode, first).launched)
  {
    var c := Context(cfg, env, job, dummy, exitCode, first);
    if !PlatformMismatch(cfg, job) {
      PairsWellFormed(c, job.dst.paths);
    }
  }
}
