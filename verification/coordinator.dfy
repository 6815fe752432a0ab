/** The run coordinator: wraps scalar paths into lists, picks the jobs to
    run (by name, or every job not marked explicit), runs them in declared
    order, reports the names that matched no job, and takes the worst
    severity of the report. */
module Coordinator {
  import opened Severities
  import opened Config
  import opened Runner

  /** One line of the final report. */
  datatype JobResult = JobResult(name: string, severity: Severity, message: string)

  const NotFoundMessage: string := "job not found"

  /** A path spec as a list: a single path becomes a one-element list. */
  function Wrap(p: PathSpec): (r: PathSpec)
    ensures r.Multiple?
    ensures p.Multiple? ==> r == p
    ensures p.Single? ==> r.paths == [p.path]
  {
    if p.Single? then Multiple([p.path]) else p
  }

  /** A job with both path specs wrapped; every other key is kept. */
  function WrapJob(job: Job): (r: Job)
    ensures Normalized(r)
    ensures r.(src := job.src, dst := job.dst) == job
    ensures Normalized(job) ==> r == job
  {
    job.(src := Wrap(job.src), dst := Wrap(job.dst))
  }

  /** Wrapping a second time changes nothing. */
  lemma WrapIdempotent(job: Job)
    ensures WrapJob(WrapJob(job)) == WrapJob(job)
    ensures Wrap(Wrap(job.src)) == Wrap(job.src)
  {
  }

  /** Wraps the path specs of every job, in place. */
  method NormalizeJobs(jobs: array<Job>)
    modifies jobs
    ensures forall i :: 0 <= i < jobs.Length ==> jobs[i] == WrapJob(old(jobs[i]))
  {
    for i := 0 to jobs.Length
      invariant forall k :: 0 <= k < i ==> jobs[k] == WrapJob(old(jobs[k]))
      invariant forall k :: i <= k < jobs.Length ==> jobs[k] == old(jobs[k])
    {
      var job := jobs[i];
      if job.src.Single? {
        job := job.(src := Multiple([job.src.path]));
      }
      if job.dst.Single? {
        job := job.(dst := Multiple([job.dst.path]));
      }
      jobs[i] := job;
    }
  }

  /** The index of the first occurrence of `x`. */
  function FirstIndex(s: seq<string>, x: string): (i: nat)
    requires x in s
    ensures i < |s| && s[i] == x && x !in s[..i]
  {
    if s[0] == x then 0
    else
      var j := FirstIndex(s[1..], x);
      assert s[..j + 1] == [s[0]] + s[1..][..j];
      j + 1
  }

  /** `s` with its first occurrence of `x` removed, as a list's `remove`
      does. */
  function RemoveFirst(s: seq<string>, x: string): (r: seq<string>)
    requires x in s
    ensures |r| + 1 == |s|
    ensures multiset(r) == multiset(s) - multiset{x}
    ensures r == s[..FirstIndex(s, x)] + s[FirstIndex(s, x) + 1..]
  {
    var i := FirstIndex(s, x);
    assert s == s[..i] + [s[i]] + s[i + 1..];
    s[..i] + s[i + 1..]
  }

  predicate AllNormalized(jobs: seq<Job>)
  {
    forall i :: 0 <= i < |jobs| ==> Normalized(jobs[i])
  }

  /** What the whole run shares: the settings, the filesystem, the dummy
      flag, the exit codes the backend will return, and the job names given
      on the command line. */
  datatype Run = Run(cfg: Settings, env: Env, dummy: bool, exitCode: nat -> int, args: seq<string>)

  /** The coordinator between two jobs: the results so far, the names not
      yet consumed, and every argument vector started so far. */
  datatype SweepState = SweepState(results: seq<JobResult>, remaining: seq<string>, launched: seq<seq<string>>)

  /** Whether the next job runs: with names given, when its name is still
      among the unconsumed ones; otherwise, when it is not explicit. */
  predicate Selected(r: Run, st: SweepState, job: Job)
  {
    if |r.args| > 0 then job.name in st.remaining else !job.explicit
  }

  /** One job of the selection loop. A selected job consumes one occurrence
      of its name (when names were given), runs with the processes counted
      from where the previous jobs left off, and adds its result. */
  function SweepStep(r: Run, st: SweepState, job: Job): SweepState
    requires Normalized(job)
  {
    if !Selected(r, st, job) then st
    else
      var remaining := if |r.args| > 0 then RemoveFirst(st.remaining, job.name) else st.remaining;
      var p := JobRun(r.cfg, r.env, job, r.dummy, r.exitCode, |st.launched|);
      SweepState(st.results + [JobResult(job.name, p.outcome.severity, p.outcome.message)], remaining, st.launched + p.launched)
  }

  /** The selection loop over the given jobs, in declared order. */
  function Sweep(r: Run, jobs: seq<Job>): SweepState
    requires AllNormalized(jobs)
  {
    if jobs == [] then SweepState([], r.args, [])
    else SweepStep(r, Sweep(r, jobs[..|jobs| - 1]), jobs[|jobs| - 1])
  }

  /** One ERROR entry per name that matched no job, in order. */
  function NotFound(names: seq<string>): (r: seq<JobResult>)
    ensures |r| == |names|
    ensures forall i :: 0 <= i < |names| ==> r[i] == JobResult(names[i], Error, NotFoundMessage)
  {
    if names == [] then []
    else NotFound(names[..|names| - 1]) + [JobResult(names[|names| - 1], Error, NotFoundMessage)]
  }

  /** The final report: the results of the jobs that ran, then (when names
      were given) an entry for every name left over. */
  function Report(r: Run, jobs: seq<Job>): seq<JobResult>
    requires AllNormalized(jobs)
  {
    var st := Sweep(r, jobs);
    if |r.args| > 0 then st.results + NotFound(st.remaining) else st.results
  }

  /** One pass of the selection loop: skip the job (an early return stands
      for the loop's `continue`), or consume its name and run it. */
  method SelectAndRun(r: Run, results: seq<JobResult>, args: seq<string>, launched: seq<seq<string>>, job: Job)
    returns (results': seq<JobResult>, args': seq<string>, launched': seq<seq<string>>)
    requires Normalized(job)
    ensures SweepState(results', args', launched') == SweepStep(r, SweepState(results, args, launched), job)
  {
    results', args', launched' := results, args, launched;
    if |r.args| > 0 {
      if job.name !in args' {
        return;
      }
      args' := RemoveFirst(args', job.name);
    } else {
      if job.explicit {
        return;
      }
    }
    var outcome, started := DoJob(r.cfg, r.env, job, r.dummy, r.exitCode, |launched'|);
    results' := results' + [JobResult(job.name, outcome.severity, outcome.message)];
    launched' := launched' + started;
  }

  /** Appends a "job not found" entry for each name, in order. */
  method AppendNotFound(results: seq<JobResult>, names: seq<string>) returns (results': seq<JobResult>)
    ensures results' == results + NotFound(names)
  {
    results' := results;
    for k := 0 to |names|
      invariant results' == results + NotFound(names[..k])
    {
      assert names[..k + 1][..k] == names[..k];
      results' := results' + [JobResult(names[k], Error, NotFoundMessage)];
    }
    assert names[..|names|] == names;
  }

  /** The selection loop over the jobs in declared order, then the
      not-found entries when names were given. */
  method RunJobs(r: Run, jobs: seq<Job>) returns (results: seq<JobResult>, launched: seq<seq<string>>)
    requires AllNormalized(jobs)
    ensures results == Report(r, jobs)
    ensures launched == Sweep(r, jobs).launched
  {
    var explicit := |r.args|;
    var args := r.args;
    results, launched := [], [];
    for n := 0 to |jobs|
      invariant SweepState(results, args, launched) == Sweep(r, jobs[..n])
    {
      assert jobs[..n + 1][..n] == jobs[..n];
      results, args, launched := SelectAndRun(r, results, args, launched, jobs[n]);
    }
    assert jobs[..|jobs|] == jobs;
    if explicit > 0 {
      results := AppendNotFound(results, args);
    }
  }

  /** The worst severity in the report, GOOD when the report is empty. */
  method MaxSeverity(results: seq<JobResult>) returns (m: Severity)
    ensures forall i :: 0 <= i < |results| ==> Level(results[i].severity) <= Level(m)
    ensures m == Good || exists i :: 0 <= i < |results| && results[i].severity == m
  {
    m := Good;
    if results != [] {
      for i := 0 to |results|
        invariant forall k :: 0 <= k < i ==> Level(results[k].severity) <= Level(m)
        invariant m == Good || exists k :: 0 <= k < i && results[k].severity == m
      {
        if Level(results[i].severity) > Level(m) {
          m := results[i].severity;
        }
      }
    }
  }

  /** The coordinator once the configuration is loaded: wrap the path specs
      in place, run the selected jobs, and take the worst severity. */
  method Pysync(r: Run, jobs: array<Job>) returns (results: seq<JobResult>, maxSeverity: Severity, launched: seq<seq<string>>)
    modifies jobs
    ensures forall i :: 0 <= i < jobs.Length ==> jobs[i] == WrapJob(old(jobs[i]))
    ensures AllNormalized(jobs[..])
    ensures results == Report(r, jobs[..])
    ensures launched == Sweep(r, jobs[..]).launched
    ensures forall i :: 0 <= i < |results| ==> Level(results[i].severity) <= Level(maxSeverity)
    ensures maxSeverity == Good || exists i :: 0 <= i < |results| && results[i].severity == maxSeverity
  {
    NormalizeJobs(jobs);
    assert forall i :: 0 <= i < jobs.Length ==> Normalized(jobs[i]);
    results, launched := RunJobs(r, jobs[..]);
    maxSeverity := MaxSeverity(results);
  }

  // Properties of the selection.

  /** The names of the given results, in order. */
  function Names(rs: seq<JobResult>): (r: seq<string>)
    ensures |r| == |rs|
  {
    if rs == [] then [] else Names(rs[..|rs| - 1]) + [rs[|rs| - 1].name]
  }

  /** The names of the given jobs, in order. */
  function JobNames(jobs: seq<Job>): (r: seq<string>)
    ensures |r| == |jobs|
  {
    if jobs == [] then [] else JobNames(jobs[..|jobs| - 1]) + [jobs[|jobs| - 1].name]
  }

  /** The jobs without the explicit flag, in order. */
  function NonExplicit(jobs: seq<Job>): (r: seq<Job>)
    ensures |r| <= |jobs|
    ensures forall k :: 0 <= k < |r| ==> !r[k].explicit && r[k] in jobs
  {
    if jobs == [] then []
    else
      var init := NonExplicit(jobs[..|jobs| - 1]);
      if jobs[|jobs| - 1].explicit then init else init + [jobs[|jobs| - 1]]
  }

  /** The filter works job by job: it distributes over concatenation and
      keeps a single job exactly when it is not explicit, so every
      non-explicit job is kept, in declared order. */
  lemma {:induction false} NonExplicitKeepsOrder(a: seq<Job>, b: seq<Job>, x: Job)
    ensures NonExplicit(a + b) == NonExplicit(a) + NonExplicit(b)
    ensures NonExplicit([x]) == if x.explicit then [] else [x]
  {
    if b != [] {
      assert (a + b)[..|a + b| - 1] == a + b[..|b| - 1];
      assert (a + b)[|a + b| - 1] == b[|b| - 1];
      NonExplicitKeepsOrder(a, b[..|b| - 1], x);
    } else {
      assert a + b == a;
    }
  }

  function Min(a: nat, b: nat): nat
  {
    if a <= b then a else b
  }

  /** Every run consumes exactly one given name: the names of the jobs that
      ran and the names left over are together the names given. */
  lemma {:induction false} NamesConsumed(r: Run, jobs: seq<Job>)
    requires AllNormalized(jobs) && |r.args| > 0
    ensures multiset(Names(Sweep(r, jobs).results)) + multiset(Sweep(r, jobs).remaining) == multiset(r.args)
  {
    if jobs != [] {
      var init := jobs[..|jobs| - 1];
      var job := jobs[|jobs| - 1];
      assert AllNormalized(init);
      NamesConsumed(r, init);
      var st := Sweep(r, init);
      if Selected(r, st, job) {
        var st' := SweepStep(r, st, job);
        assert st'.results[..|st'.results| - 1] == st.results;
        assert Names(st'.results) == Names(st.results) + [job.name];
        assert multiset(st'.remaining) == multiset(st.remaining) - multiset{job.name};
      }
    }
  }

  /** With names given, a name `x` runs as many jobs as the smaller of the
      number of times it was given and the number of jobs called `x`: the
      earliest declared jobs of that name run, one per occurrence. */
  lemma {:induction false} NameCount(r: Run, jobs: seq<Job>, x: string)
    requires AllNormalized(jobs) && |r.args| > 0
    ensures multiset(Names(Sweep(r, jobs).results))[x] == Min(multiset(r.args)[x], multiset(JobNames(jobs))[x])
  {
    if jobs != [] {
      var init := jobs[..|jobs| - 1];
      var job := jobs[|jobs| - 1];
      assert AllNormalized(init);
      NameCount(r, init, x);
      NamesConsumed(r, init);
      var st := Sweep(r, init);
      assert multiset(JobNames(jobs)) == multiset(JobNames(init)) + multiset{job.name};
      if Selected(r, st, job) {
        var st' := SweepStep(r, st, job);
        assert st'.results[..|st'.results| - 1] == st.results;
        assert Names(st'.results) == Names(st.results) + [job.name];
      } else if job.name == x {
        assert multiset(st.remaining)[x] == 0;
      }
    }
  }

  /** A given name that no job carries ends up as a "job not found" ERROR
      entry of the report. */
  lemma UnknownNameReported(r: Run, jobs: seq<Job>, x: string)
    requires AllNormalized(jobs) && x in r.args && x !in JobNames(jobs)
    ensures JobResult(x, Error, NotFoundMessage) in Report(r, jobs)
  {
    var st := Sweep(r, jobs);
    UnknownNameRemains(r, jobs, x);
    assert Report(r, jobs) == st.results + NotFound(st.remaining);
    NotFoundListed(st.results, st.remaining, x);
  }

  /** Every leftover name has its "job not found" entry after the results. */
  lemma NotFoundListed(results: seq<JobResult>, names: seq<string>, x: string)
    requires x in names
    ensures JobResult(x, Error, NotFoundMessage) in results + NotFound(names)
  {
    var i :| 0 <= i < |names| && names[i] == x;
    assert (results + NotFound(names))[|results| + i] == NotFound(names)[i];
  }

  /** A given name that no job carries is never consumed. */
  lemma UnknownNameRemains(r: Run, jobs: seq<Job>, x: string)
    requires AllNormalized(jobs) && x in r.args && x !in JobNames(jobs)
    ensures x in Sweep(r, jobs).remaining
  {
    var st := Sweep(r, jobs);
    NameCount(r, jobs, x);
    NamesConsumed(r, jobs);
    assert multiset(JobNames(jobs))[x] == 0;
    assert multiset(Names(st.results))[x] == 0;
    assert multiset(st.remaining)[x] == multiset(r.args)[x] > 0;
  }

  /** Without names, exactly the jobs not marked explicit run, in declared
      order, and the report holds nothing else. */
  lemma {:induction false} ImplicitSelection(r: Run, jobs: seq<Job>)
    requires AllNormalized(jobs) && r.args == []
    ensures Names(Sweep(r, jobs).results) == JobNames(NonExplicit(jobs))
    ensures Sweep(r, jobs).remaining == []
    ensures Report(r, jobs) == Sweep(r, jobs).results
  {
    if jobs != [] {
      var init := jobs[..|jobs| - 1];
      var job := jobs[|jobs| - 1];
      assert AllNormalized(init);
      ImplicitSelection(r, init);
      var st := Sweep(r, init);
      if !job.explicit {
        var st' := SweepStep(r, st, job);
        assert st'.results[..|st'.results| - 1] == st.results;
        var ne := NonExplicit(jobs);
        assert ne[..|ne| - 1] == NonExplicit(init);
      }
    }
  }

  /** `a` is `b` with some elements left out, the rest in their order. */
  ghost predicate Subsequence(a: seq<string>, b: seq<string>)
    decreases |b|
  {
    if a == [] then true
    else if b == [] then false
    else (a[|a| - 1] == b[|b| - 1] && Subsequence(a[..|a| - 1], b[..|b| - 1])) || Subsequence(a, b[..|b| - 1])
  }

  lemma {:induction false} SubsequenceReflexive(a: seq<string>)
    ensures Subsequence(a, a)
  {
    if a != [] {
      SubsequenceReflexive(a[..|a| - 1]);
    }
  }

  lemma {:induction false} SubsequenceTransitive(a: seq<string>, b: seq<string>, c: seq<string>)
    requires Subsequence(a, b) && Subsequence(b, c)
    ensures Subsequence(a, c)
    decreases |c|
  {
    if a != [] {
      var bi, ci := b[..|b| - 1], c[..|c| - 1];
      if Subsequence(b, ci) {
        SubsequenceTransitive(a, b, ci);
      } else if a[|a| - 1] == b[|b| - 1] && Subsequence(a[..|a| - 1], bi) {
        SubsequenceTransitive(a[..|a| - 1], bi, ci);
      } else {
        SubsequenceTransitive(a, bi, ci);
      }
    }
  }

  lemma {:induction false} DropOne(s: seq<string>, i: nat)
    requires i < |s|
    ensures Subsequence(s[..i] + s[i + 1..], s)
  {
    var t := s[..i] + s[i + 1..];
    var si := s[..|s| - 1];
    if i == |s| - 1 {
      assert t == si;
      SubsequenceReflexive(si);
    } else {
      DropOne(si, i);
      assert t[..|t| - 1] == si[..i] + si[i + 1..];
      assert t[|t| - 1] == s[|s| - 1];
    }
  }

  /** The names left over keep the order in which they were given, so the
      not-found entries follow the command line. */
  lemma {:induction false} RemainingInOrder(r: Run, jobs: seq<Job>)
    requires AllNormalized(jobs)
    ensures Subsequence(Sweep(r, jobs).remaining, r.args)
  {
    if jobs == [] {
      SubsequenceReflexive(r.args);
    } else {
      var init := jobs[..|jobs| - 1];
      var job := jobs[|jobs| - 1];
      assert AllNormalized(init);
      RemainingInOrder(r, init);
      var st := Sweep(r, init);
      if Selected(r, st, job) && |r.args| > 0 {
        DropOne(st.remaining, FirstIndex(st.remaining, job.name));
        SubsequenceTransitive(Sweep(r, jobs).remaining, st.remaining, r.args);
      }
    }
  }

  /** The names in the report come in declared job order. */
  lemma {:induction false} ResultsInJobOrder(r: Run, jobs: seq<Job>)
    requires AllNormalized(jobs)
    ensures Subsequence(Names(Sweep(r, jobs).results), JobNames(jobs))
  {
    if jobs != [] {
      var init := jobs[..|jobs| - 1];
      var job := jobs[|jobs| - 1];
      assert AllNormalized(init);
      ResultsInJobOrder(r, init);
      var st := Sweep(r, init);
      var names := JobNames(jobs);
      assert names[..|names| - 1] == JobNames(init);
      if Selected(r, st, job) {
        var st' := SweepStep(r, st, job);
        assert st'.results[..|st'.results| - 1] == st.results;
        var rn := Names(st'.results);
        assert rn[..|rn| - 1] == Names(st.results);
      } else if Names(st.results) != [] {
        assert Names(Sweep(r, jobs).results) == Names(st.results);
      }
    }
  }

  /** A dummy run starts no process at all. */
  lemma {:induction false} DummyRunStartsNothing(r: Run, jobs: seq<Job>)
    requires AllNormalized(jobs) && r.dummy
    ensures Sweep(r, jobs).launched == []
  {
    if jobs != [] {
      var init := jobs[..|jobs| - 1];
      var job := jobs[|jobs| - 1];
      assert AllNormalized(init);
      DummyRunStartsNothing(r, init);
      DummyLaunchesNothing(r.cfg, r.env, job, r.exitCode, |Sweep(r, init).launched|);
    }
  }

  /** No jobs at all: the report is one "job not found" entry per given
      name, and nothing is started. */
  lemma NoJobs(r: Run)
    ensures Report(r, []) == NotFound(r.args)
    ensures Sweep(r, []).launched == []
  {
  }
}
