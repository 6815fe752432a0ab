/** The argument vector of one backend invocation: the per-job command that
    `do_job` builds once, and the per-pair vector with the two paths added. */
module Commands {
  import opened Config

  /** A robocopy exclusion section: the flag and its globs, or nothing when
      there are no globs. */
  function Section(flag: string, globs: seq<string>): seq<string>
  {
    if globs == [] then [] else [flag] + globs
  }

  /** One `--exclude glob` pair per glob, in order. */
  function ExcludePairs(globs: seq<string>): seq<string>
  {
    if globs == [] then [] else ExcludePairs(globs[..|globs| - 1]) + ["--exclude", globs[|globs| - 1]]
  }

  /** The job's exclusion globs for directories, then the global ones. */
  function DirGlobs(cfg: Settings, job: Job): seq<string>
  {
    job.excludeDirs + cfg.excludeDirs
  }

  /** The job's exclusion globs for files, then the global ones. */
  function FileGlobs(cfg: Settings, job: Job): seq<string>
  {
    job.excludeFiles + cfg.excludeFiles
  }

  /** The robocopy command without its paths. */
  function RobocopyCommand(cfg: Settings, job: Job): seq<string>
  {
    [cfg.robocopyCmd] + cfg.robocopyOpts + job.robocopyArgs
    + (if job.robocopyIgnore then ["/r:0"] else [])
    + Section("/xd", DirGlobs(cfg, job))
    + Section("/xf", FileGlobs(cfg, job))
  }

  /** The rsync command without its paths. */
  function RsyncCommand(cfg: Settings, job: Job): seq<string>
  {
    [cfg.rsyncCmd] + cfg.rsyncOpts + job.rsyncArgs
    + ExcludePairs(DirGlobs(cfg, job)) + ExcludePairs(FileGlobs(cfg, job))
  }

  function Command(cfg: Settings, job: Job): seq<string>
  {
    if cfg.backend.Robocopy? then RobocopyCommand(cfg, job) else RsyncCommand(cfg, job)
  }

  /** Appends `--exclude g` for each glob `g`, one glob at a time. */
  method AppendExcludes(cmd: seq<string>, globs: seq<string>) returns (r: seq<string>)
    ensures r == cmd + ExcludePairs(globs)
  {
    r := cmd;
    for i := 0 to |globs|
      invariant r == cmd + ExcludePairs(globs[..i])
    {
      r := r + ["--exclude"];
      r := r + [globs[i]];
      assert globs[..i + 1][..i] == globs[..i];
    }
    assert globs[..|globs|] == globs;
  }

  /** Builds the robocopy command by appending to it piece by piece. */
  method BuildRobocopyCommand(cfg: Settings, job: Job) returns (cmd: seq<string>)
    ensures cmd == RobocopyCommand(cfg, job)
  {
    cmd := [cfg.robocopyCmd] + cfg.robocopyOpts + job.robocopyArgs;
    if job.robocopyIgnore {
      cmd := cmd + ["/r:0"];
    }
    ghost var prefix := cmd;
    var dirs := job.excludeDirs + cfg.excludeDirs;
    if dirs != [] {
      cmd := cmd + ["/xd"];
      cmd := cmd + dirs;
      assert cmd == prefix + (["/xd"] + dirs);
    }
    assert cmd == prefix + Section("/xd", dirs);
    prefix := cmd;
    var files := job.excludeFiles + cfg.excludeFiles;
    if files != [] {
      cmd := cmd + ["/xf"];
      cmd := cmd + files;
      assert cmd == prefix + (["/xf"] + files);
    }
    assert cmd == prefix + Section("/xf", files);
  }

  /** Builds the rsync command: the base, then the directory excludes, then
      the file excludes. */
  method BuildRsyncCommand(cfg: Settings, job: Job) returns (cmd: seq<string>)
    ensures cmd == RsyncCommand(cfg, job)
  {
    cmd := [cfg.rsyncCmd] + cfg.rsyncOpts + job.rsyncArgs;
    cmd := AppendExcludes(cmd, job.excludeDirs + cfg.excludeDirs);
    cmd := AppendExcludes(cmd, job.excludeFiles + cfg.excludeFiles);
  }

  /** Builds the per-job command of the backend in use. */
  method BuildCommand(cfg: Settings, job: Job) returns (cmd: seq<string>)
    ensures cmd == Command(cfg, job)
    ensures |cmd| >= 1 && cmd[0] == (if cfg.backend.Robocopy? then cfg.robocopyCmd else cfg.rsyncCmd)
  {
    if cfg.backend.Robocopy? {
      cmd := BuildRobocopyCommand(cfg, job);
    } else {
      cmd := BuildRsyncCommand(cfg, job);
    }
  }

  lemma {:induction false} ExcludePairsAt(globs: seq<string>, k: nat)
    requires k < |globs|
    ensures |ExcludePairs(globs)| == 2 * |globs|
    ensures ExcludePairs(globs)[2 * k] == "--exclude" && ExcludePairs(globs)[2 * k + 1] == globs[k]
  {
    var init := globs[..|globs| - 1];
    ExcludePairsLength(init);
    if k < |globs| - 1 {
      ExcludePairsAt(init, k);
    }
  }

  lemma {:induction false} ExcludePairsLength(globs: seq<string>)
    ensures |ExcludePairs(globs)| == 2 * |globs|
  {
    if globs != [] {
      ExcludePairsLength(globs[..|globs| - 1]);
    }
  }

  lemma {:induction false} ExcludePairsAppend(a: seq<string>, b: seq<string>)
    ensures ExcludePairs(a + b) == ExcludePairs(a) + ExcludePairs(b)
  {
    if b != [] {
      assert (a + b)[..|a + b| - 1] == a + b[..|b| - 1];
      ExcludePairsAppend(a, b[..|b| - 1]);
    } else {
      assert a + b == a;
    }
  }

  /** All exclusion globs of an rsync job, in the order they are passed:
      job directories, global directories, job files, global files. */
  function RsyncGlobs(cfg: Settings, job: Job): seq<string>
  {
    job.excludeDirs + cfg.excludeDirs + job.excludeFiles + cfg.excludeFiles
  }

  /** The rsync command is the executable, the base options and the job's
      rsync arguments, followed by `--exclude g` for every glob g, in order:
      the job's own globs sit beside the global ones, not instead of them. */
  lemma RsyncShape(cfg: Settings, job: Job)
    ensures var cmd := RsyncCommand(cfg, job);
      var base := 1 + |cfg.rsyncOpts| + |job.rsyncArgs|;
      var globs := RsyncGlobs(cfg, job);
      && |cmd| == base + 2 * |globs|
      && cmd[..base] == [cfg.rsyncCmd] + cfg.rsyncOpts + job.rsyncArgs
      && forall k :: 0 <= k < |globs| ==> cmd[base + 2 * k] == "--exclude" && cmd[base + 2 * k + 1] == globs[k]
  {
    RsyncCommandFlat(cfg, job);
    PairsAfter([cfg.rsyncCmd] + cfg.rsyncOpts + job.rsyncArgs, RsyncGlobs(cfg, job));
  }

  /** The two runs of `--exclude` pairs are one run over all the globs. */
  lemma RsyncCommandFlat(cfg: Settings, job: Job)
    ensures RsyncCommand(cfg, job) == [cfg.rsyncCmd] + cfg.rsyncOpts + job.rsyncArgs + ExcludePairs(RsyncGlobs(cfg, job))
  {
    ExcludePairsAppend(DirGlobs(cfg, job), FileGlobs(cfg, job));
    assert RsyncGlobs(cfg, job) == DirGlobs(cfg, job) + FileGlobs(cfg, job);
  }

  /** The `--exclude` pairs after a prefix, one pair per glob. */
  lemma PairsAfter(head: seq<string>, globs: seq<string>)
    ensures var s := head + ExcludePairs(globs);
      && |s| == |head| + 2 * |globs|
      && s[..|head|] == head
      && forall k :: 0 <= k < |globs| ==> s[|head| + 2 * k] == "--exclude" && s[|head| + 2 * k + 1] == globs[k]
  {
    var s := head + ExcludePairs(globs);
    ExcludePairsLength(globs);
    assert s[..|head|] == head;
    forall k | 0 <= k < |globs|
      ensures s[|head| + 2 * k] == "--exclude" && s[|head| + 2 * k + 1] == globs[k]
    {
      ExcludePairsAt(globs, k);
    }
  }

  /** The robocopy command is the executable, the base options and the job's
      robocopy arguments; then `/r:0` exactly when the ignore flag is set;
      then `/xd` and the directory globs (the job's first, the global ones
      after them) unless there are none; then `/xf` and the file globs
      likewise, ending the vector. */
  lemma RobocopyShape(cfg: Settings, job: Job)
    ensures var cmd := RobocopyCommand(cfg, job);
      var base := 1 + |cfg.robocopyOpts| + |job.robocopyArgs|;
      var retry := if job.robocopyIgnore then 1 else 0;
      var dirs := DirGlobs(cfg, job);
      var files := FileGlobs(cfg, job);
      var xd := base + retry;
      var xf := xd + (if dirs == [] then 0 else 1 + |dirs|);
      && |cmd| == xf + (if files == [] then 0 else 1 + |files|)
      && cmd[..base] == [cfg.robocopyCmd] + cfg.robocopyOpts + job.robocopyArgs
      && (job.robocopyIgnore ==> cmd[base] == "/r:0")
      && (dirs != [] ==> cmd[xd] == "/xd" && cmd[xd + 1..xf] == dirs)
      && (files != [] ==> cmd[xf] == "/xf" && cmd[xf + 1..] == files)
  {
    var head := [cfg.robocopyCmd] + cfg.robocopyOpts + job.robocopyArgs;
    RobocopyLayout(head, job.robocopyIgnore, DirGlobs(cfg, job), FileGlobs(cfg, job));
  }

  /** `RobocopyShape` for any head and glob lists. */
  lemma RobocopyLayout(head: seq<string>, ignore: bool, dirs: seq<string>, files: seq<string>)
    ensures var r: seq<string> := if ignore then ["/r:0"] else [];
      var cmd := head + r + Section("/xd", dirs) + Section("/xf", files);
      var xd := |head| + |r|;
      var xf := xd + (if dirs == [] then 0 else 1 + |dirs|);
      && |cmd| == xf + (if files == [] then 0 else 1 + |files|)
      && cmd[..|head|] == head
      && (ignore ==> cmd[|head|] == "/r:0")
      && (dirs != [] ==> cmd[xd] == "/xd" && cmd[xd + 1..xf] == dirs)
      && (files != [] ==> cmd[xf] == "/xf" && cmd[xf + 1..] == files)
  {
    var r: seq<string> := if ignore then ["/r:0"] else [];
    var d, f := Section("/xd", dirs), Section("/xf", files);
    var cmd := head + r + d + f;
    SectionAt(head + r, f, "/xd", dirs);
    assert cmd == head + r + d + f + [];
    SectionAt(head + r + d, [], "/xf", files);
    assert cmd[..|head|] == head;
    if ignore {
      assert cmd[|head|] == r[0];
    }
  }

  /** A section placed after `before` and followed by `after`: when it is
      not empty, its flag, then its globs; the neighbours stay in place. */
  lemma SectionAt(before: seq<string>, after: seq<string>, flag: string, globs: seq<string>)
    ensures var sec := Section(flag, globs);
      var s := before + sec + after;
      && |sec| == (if globs == [] then 0 else 1 + |globs|)
      && |s| == |before| + |sec| + |after|
      && (globs != [] ==> s[|before|] == flag && s[|before| + 1..|before| + |sec|] == globs)
  {
    if globs != [] {
      var s := before + Section(flag, globs) + after;
      assert s == before + [flag] + globs + after;
      assert s[|before| + 1..|before| + 1 + |globs|] == globs;
    }
  }

  /** The vector for one (source, destination) pair: robocopy takes the two
      paths right after the executable, rsync takes them last. */
  function Invocation(backend: Backend, cmd: seq<string>, src: string, dst: string): seq<string>
    requires cmd != []
  {
    if backend.Robocopy? then [cmd[0]] + [src, dst] + cmd[1..] else cmd + [src, dst]
  }

  /** Adding the paths leaves every element of the command in its order. */
  lemma InvocationShape(backend: Backend, cmd: seq<string>, src: string, dst: string)
    requires cmd != []
    ensures var v := Invocation(backend, cmd, src, dst);
      && |v| == |cmd| + 2
      && (backend.Robocopy? ==>
            v[0] == cmd[0] && v[1] == src && v[2] == dst && v[3..] == cmd[1..])
      && (backend.Rsync? ==>
            v[..|cmd|] == cmd && v[|cmd|] == src && v[|cmd| + 1] == dst)
  {
    var v := Invocation(backend, cmd, src, dst);
    if backend.Robocopy? {
      assert v[3..] == cmd[1..];
    } else {
      assert v[..|cmd|] == cmd;
    }
  }
}
