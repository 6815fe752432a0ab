# pysync in Dafny

A model of pysync, a script that backs up directories by running
`robocopy` (on Windows) or `rsync` (elsewhere) once for every
(destination root, source) pair of every configured job. The model covers:

- the five-level severity scale (GOOD < OK < WARN < ERROR < SEVERE);
- the rule that raises a job's running (severity, message) only when the new
  severity is strictly higher;
- the built-in settings a configuration file may override;
- the per-job backend command: base options, job arguments, the `/r:0` retry
  switch, exclusion sections or `--exclude` pairs;
- the path normaliser: separator rewrite, `lefttrim` segment dropping, `:`
  removal, joining under the destination root, and the trailing-separator
  convention of each backend;
- `do_job`: the platform guard, the nested destination × source loop with
  its skip-on-error `continue`s, dummy mode, and the classification of
  robocopy's exit-code bits and rsync's exit codes;
- the coordinator: wrapping scalar `src`/`dst` into lists, selecting jobs by
  the names given on the command line (each run consumes one occurrence of
  its name) or by the `explicit` flag, the "job not found" entries, and the
  maximum severity of the report.

Files and modules:

- `text.dfy` (`Text`) holds the string operations.
- `severity.dfy` (`Severities`) holds the scale and the raise rule.
- `config.dfy` (`Config`) holds jobs, settings and defaults.
- `paths.dfy` (`Paths`) holds the path steps as pure functions.
- `commands.dfy` (`Commands`) holds the command builders, imperative as in
  the source, proved equal to their specification functions.
- `runner.dfy` (`Runner`) holds `do_job` as a method with nested loops,
  proved equal to the fold `JobRun`, with lemmas about `JobRun`.
- `coordinator.dfy` (`Coordinator`) holds the main block: an in-place pass
  over an array of jobs, then the selection loop, proved equal to the fold
  `Sweep`/`Report`, with lemmas about the selection.

The environment is passed in as parameters:

- `Env.isDir` and `Env.makeDirs` answer whether a path is a directory and
  whether creating it succeeds.
- `exitCode(k)` is the exit code of the k-th process the run starts.
- The platform, the backend, the executables and the separator are fields
  of `Settings`.

Three behaviours of the code are easy to misread; the model follows the
code in each:

- **Selection by name.** When several jobs share a name, one might expect
  the last match to win. In the code, each job that runs removes the
  first occurrence of its name from the argument list. So the earliest
  declared jobs of a name run, one per occurrence of the name
  (`Coordinator.NameCount`).
- **Exit status.** One might expect the process to exit with the maximum
  severity. The code computes `max_severity` but never exits with it. The
  model computes the maximum and claims nothing about the exit status.
- **Rsync exit codes.** Zero is rsync's success code. The code also
  treats negative codes (a process killed by a signal) as success, because
  it only tests `> 0`. The model does the same.

The inner loop of `do_job` reassigns its destination-root variable with the
rewritten path. The next source therefore starts from the rewritten root.
`Runner.DoJob` does the same, and the idempotence of the rewrite
(`Runner.SeparatorsIdempotent`) shows this gives the same pairs as
rewriting the declared root each time.

## Model

| member | source | states |
|---|---|---|
| Text.ReplaceChar | pysync.py:189-194 | same length; every occurrence of the old character becomes the new one, every other character is kept |
| Text.DeleteChar | pysync.py:208 | the result holds no `:` (the deleted character); every other character keeps its count; a string without it is unchanged |
| Text.DeleteCharKeepsOrder | pysync.py:208 | deleting distributes over concatenation and keeps a single character exactly when it is not the deleted one, which fixes the result: the other characters, in order |
| Text.StripRight | pysync.py:209 | the result is a prefix that does not end with the character, and everything cut off is that character (also used at lines 231-232) |
| Text.SplitOn | pysync.py:202 | at least one piece, and no piece contains the separator |
| Text.NonEmptyOnly | pysync.py:202 | keeps only non-empty pieces, each one of the originals |
| Text.NonEmptyOnlyKeepsOrder | pysync.py:202 | dropping empty pieces distributes over concatenation and keeps a single piece exactly when it is non-empty, so every non-empty piece is kept, in order |
| Text.JoinWith | pysync.py:204 | reference definition of `SEPARATOR.join`; `JoinSplit` and `SplitJoin` state its properties |
| Text.JoinSplit | pysync.py:202-204 | joining the pieces of a split with the separator gives back the string |
| Text.SplitJoin | pysync.py:202-204 | splitting a join of non-empty, separator-free segments and dropping empty pieces gives back the segments |
| Text.Decimal | pysync.py:273 | the decimal rendering is non-empty, all digits, without a leading zero unless it is 0 |
| Text.DecimalRoundTrip | pysync.py:273 | reading the decimal rendering back gives the number |
| Severities.Max | pysync.py:111-115 | the combined severity is at least both severities and is one of them |
| Severities.MaxLaws | pysync.py:111-115 | combining is commutative, associative and idempotent, with GOOD neutral |
| Severities.MaxAll | pysync.py:182-273 | reference definition of a running maximum: a severity combined with every element of a list in turn; `MaxAllBounds` states its properties |
| Severities.MaxAllBounds | pysync.py:182-273 | the running maximum is at least the start and every element, and it is the start or one of the elements |
| Severities.Raise | pysync.py:218-220 | the new severity is the maximum; the outcome changes only on a strict rise, and then it takes the new message |
| Config.Defaults | pysync.py:32-103 | robocopy exactly on Windows, rsync elsewhere; the platform's separator |
| Paths.NativeSeparators | pysync.py:189-194 | each slash of either kind becomes the native separator, all else kept; the non-native slash no longer occurs |
| Paths.SeparatorAgnostic | pysync.py:189-194 | paths that differ only in their slashes rewrite to the same path; rewriting twice is rewriting once |
| Paths.SliceFrom | pysync.py:203 | Python's `s[k:]` for any integer k, negative k counting from the end |
| Paths.Segments | pysync.py:202 | reference definition of the list comprehension over `split`; `SegmentsAreClean`, `NonEmptyOnlyKeepsOrder` and `SubpathSegments` state its properties |
| Paths.SegmentsAreClean | pysync.py:202 | each segment is non-empty and holds no separator |
| Paths.Subpath | pysync.py:200-206 | reference definition of the `lefttrim` branch; `SubpathBounds` and `SubpathSegments` state its properties |
| Paths.SubpathBounds | pysync.py:200-206 | `lefttrim` 0 keeps the whole source; a count at least the number of segments leaves nothing |
| Paths.SubpathSegments | pysync.py:200-204 | with `lefttrim` k > 0, the segments of the subpath are the source's segments with the first k dropped |
| Paths.Destination | pysync.py:208-209 | reference definition of the destination path; `DestinationShape` and `TrimExample` state its properties |
| Paths.DestinationShape | pysync.py:208-209 | the destination is the root without trailing separators, one separator, then the subpath without any `:` |
| Paths.Convention | pysync.py:231-236 | reference definition of the trailing-separator convention; `ConventionShape` states its properties |
| Paths.ConventionShape | pysync.py:231-236 | robocopy paths never end with the separator; rsync paths end with exactly one, added after stripping |
| Paths.TrimExample | pysync.py:200-209 | trimming two segments of `C:/Users/alice` under `D:/backup` gives `D:/backup/alice` |
| Commands.Section | pysync.py:164-171 | reference definition of one robocopy exclusion section; `SectionAt` states its properties |
| Commands.ExcludePairs | pysync.py:175-180 | reference definition of the `--exclude` pairs; `ExcludePairsLength`, `ExcludePairsAt` and `ExcludePairsAppend` state its properties |
| Commands.RobocopyCommand | pysync.py:156-171 | reference definition of the robocopy command; `RobocopyShape` states its layout |
| Commands.RsyncCommand | pysync.py:172-180 | reference definition of the rsync command; `RsyncShape` states its layout |
| Commands.Command | pysync.py:156-180 | reference definition of the command of the active backend; `BuildCommand` states its properties |
| Commands.Invocation | pysync.py:242-245 | reference definition of the started vector; `InvocationShape` states its properties |
| Commands.AppendExcludes | pysync.py:175-180 | the loop appends exactly one `--exclude g` pair per glob, in order |
| Commands.BuildRobocopyCommand | pysync.py:156-171 | the step-by-step robocopy command equals its specification |
| Commands.BuildRsyncCommand | pysync.py:172-180 | the step-by-step rsync command equals its specification |
| Commands.BuildCommand | pysync.py:155-180 | the command of the backend in use, starting with its executable |
| Commands.ExcludePairsLength | pysync.py:175-180 | two entries per glob |
| Commands.ExcludePairsAt | pysync.py:175-180 | entry 2k is `--exclude` and entry 2k+1 is glob k |
| Commands.ExcludePairsAppend | pysync.py:175-180 | the pairs of two glob lists in a row are the pairs of the first list, then of the second |
| Commands.RsyncShape | pysync.py:172-180 | executable, base options, job arguments, then `--exclude g` for job dirs, global dirs, job files, global files, in that order |
| Commands.RsyncCommandFlat | pysync.py:175-180 | the directory pairs followed by the file pairs are the pairs of all globs in that order |
| Commands.PairsAfter | pysync.py:175-180 | after any prefix, entry 2k is `--exclude` and entry 2k+1 is glob k |
| Commands.RobocopyShape | pysync.py:156-171 | executable, base options, job arguments; `/r:0` exactly when ignoring; `/xd` with job then global dirs unless none; `/xf` with the files last |
| Commands.RobocopyLayout | pysync.py:156-171 | the same layout for any head and glob lists |
| Commands.SectionAt | pysync.py:164-171 | a non-empty exclusion section is its flag followed by its globs, wherever it sits |
| Commands.InvocationShape | pysync.py:242-245 | robocopy gets source and destination at positions 1 and 2, rsync gets them last; every command element stays in order |
| Runner.RobocopyLevel | pysync.py:259-268 | reference definition of the severity of a robocopy code's bits; `ClassifyRobocopy` and `RobocopyExamples` state its properties |
| Runner.Classify | pysync.py:257-273 | reference definition of the classification for the active backend; `ClassifyIsMax`, `ZeroCodeKeeps` and `ApplyExitCode` state its properties |
| Runner.ClassifyRobocopy | pysync.py:259-268 | the severity becomes the maximum of the old one and the code's level (bit 16 SEVERE, 4 ERROR, 8 WARN unless ignored); the message changes only on a strict rise |
| Runner.ClassifyRsync | pysync.py:269-273 | codes ≤ 0 change nothing; a positive code raises to at least ERROR, and from below ERROR the message becomes `rsync exit code N` |
| Runner.RsyncMessageNamesCode | pysync.py:273 | the rsync message is the fixed prefix followed by the code's digits, which read back as the code |
| Runner.RobocopyExamples | pysync.py:259-268 | from GOOD, 16 gives SEVERE, 4 ERROR, 8 WARN (nothing when ignored), 0 nothing |
| Runner.RsyncExamples | pysync.py:269-273 | from GOOD, rsync 0 gives nothing and 23 gives ERROR "rsync exit code 23" |
| Runner.RobocopyHighestBitWins | pysync.py:259-268 | with several bits set, the message of the most severe bit is kept |
| Runner.PairOutcome | pysync.py:210-273 | reference definition of one pair's effect on the outcome; `OutcomeIsMax`, `PassingPairLaunches` and `PassingZeroCode` state its properties |
| Runner.PairStep | pysync.py:186-273 | reference definition of one declared pair; `PairIsMax`, `PairStepLaunches`, `PairStepZeroCode`, `FailedPairSkipped` and `PairLaunchWellFormed` state its properties |
| Runner.RunSources | pysync.py:185-273 | reference definition of one destination's source loop; `SourcesMonotone` and `SourcesMax` state its properties |
| Runner.RunPairs | pysync.py:184-273 | reference definition of the nested loop; `PairsMonotone`, `PairsBound` and `PairsAttained` state its properties |
| Runner.JobRun | pysync.py:135-275 | reference definition of `do_job`; `DoJob`, `JobGuard`, `JobIsMax`, `FailedPairIsError`, `HappyPath` and `LaunchedShape` state its properties |
| Runner.ResolvePaths | pysync.py:189-209 | the step-by-step path code yields the rewritten root, the rewritten source and the destination of the path functions |
| Runner.ApplyExitCode | pysync.py:257-273 | the step-by-step exit-code checks equal the classification |
| Runner.BuildInvocation | pysync.py:229-245 | the step-by-step vector is the command with both paths in the backend's convention and position |
| Runner.CheckAndLaunch | pysync.py:210-273 | the mkdir and source checks with their early `continue`s, then the launch, equal one pair step on resolved paths |
| Runner.Launch | pysync.py:229-273 | a pair that passed its checks starts its vector and classifies its exit code outside dummy mode, and starts nothing in dummy mode |
| Runner.RunPair | pysync.py:186-253 | one pass of the inner loop equals one pair step, including both early `continue`s and dummy mode, and returns the rewritten root |
| Runner.RunDestination | pysync.py:185-273 | the inner loop over the sources, reassigning the root as it goes, equals the fold of the pair steps over the declared root |
| Runner.PassingPairLaunches | pysync.py:229-273 | a pair that passes both checks outside dummy mode classifies the exit code of the next process and starts exactly its own vector |
| Runner.PairStepLaunches | pysync.py:229-253 | a declared pair that passes both checks outside dummy mode starts exactly one vector |
| Runner.PairStepZeroCode | pysync.py:229-273 | a declared pair that passes both checks and exits with 0 keeps the job's outcome |
| Runner.SameRootSameStep | pysync.py:186-194 | a pair depends on its destination root only through the rewritten root |
| Runner.SeparatorsIdempotent | pysync.py:189-194 | rewriting an already rewritten root changes nothing |
| Runner.DoJob | pysync.py:135-275 | the guard and the nested loops compute exactly `JobRun`: the final severity, message and started vectors |
| Runner.JobGuard | pysync.py:139-146 | a job for the other platform is WARN and starts nothing |
| Runner.PairIsMax | pysync.py:182-273 | a pair's severity is the maximum of the running one and the pair's own from GOOD; the message stays unless the severity rose |
| Runner.PairAtIsMax | pysync.py:210-273 | the same for a pair with resolved paths |
| Runner.OutcomeIsMax | pysync.py:210-273 | each of the pair's outcomes (mkdir error, missing source, dummy, classified code) is the maximum with the same outcome from GOOD |
| Runner.RaiseIsMax | pysync.py:218-227 | an error raise is the maximum with the raise from GOOD |
| Runner.ClassifyIsMax | pysync.py:257-273 | classifying is the maximum with classifying from GOOD |
| Runner.FailedPairSkipped | pysync.py:210-227 | a failed mkdir or missing source raises to at least ERROR and starts nothing |
| Runner.DummyPairLaunchesNothing | pysync.py:248-249 | a dummy pair starts nothing |
| Runner.SourcesMonotone | pysync.py:185-273 | the severity never decreases along one destination's sources |
| Runner.SourceAlones | pysync.py:185-273 | reference definition: one own severity per source, entry j being source j's outcome from GOOD at the launch index the sources before it leave; `SourcesMax` states its use |
| Runner.SourceAlonesInit | pysync.py:185-273 | the own severities of all sources but the last do not depend on the last source |
| Runner.SourcesMax | pysync.py:185-273 | one destination's severity is the running maximum of the starting severity and each source's own severity |
| Runner.PairAlone | pysync.py:184-273 | the own severity of pair (i, j): from GOOD, after every pair before it |
| Runner.PairsMonotone | pysync.py:184-273 | the severity over all destination roots is at least the severity over any first k of them |
| Runner.PairsBound | pysync.py:184-273 | the severity over all pairs is at least each pair's own severity |
| Runner.PairsAttained | pysync.py:184-273 | the severity over all pairs is GOOD or the own severity of one pair |
| Runner.PairAloneAgrees | pysync.py:184-273 | a pair of an earlier root has the same own severity whether or not later roots follow |
| Runner.PairAloneLast | pysync.py:184-273 | the own severities of the last root's pairs are those of its source loop |
| Runner.JobIsMax | pysync.py:182-275 | a job that runs ends at least at every declared pair's own severity, and at GOOD or one of them |
| Runner.FailedPairIsError | pysync.py:182-227 | one failing pair anywhere makes the job end at ERROR or worse |
| Runner.DummyLaunchesNothing | pysync.py:248-249 | a dummy job starts no process, so it consumes no exit code |
| Runner.ZeroCodeKeeps | pysync.py:257-273 | exit code 0 changes nothing for either backend |
| Runner.HappyPath | pysync.py:182-273 | all directories in place and all codes 0: one process per pair, and the job ends GOOD "OK!" |
| Runner.InvocationWellFormed | pysync.py:229-245 | any two paths, put through the convention, give a well-formed vector |
| Runner.PairLaunchWellFormed | pysync.py:229-253 | a pair keeps every started vector well formed |
| Runner.LaunchedShape | pysync.py:182-253 | every vector a job starts is its command with two paths in the backend's position and trailing-separator convention |
| Coordinator.Wrap | pysync.py:345-349 | the result is a list; a list is kept, a single path becomes a one-element list |
| Coordinator.WrapJob | pysync.py:345-349 | the job is normalised and nothing but its paths changes; a normalised job is kept |
| Coordinator.WrapIdempotent | pysync.py:345-349 | wrapping twice is wrapping once |
| Coordinator.NormalizeJobs | pysync.py:345-349 | every job in the array is replaced, in place, by its wrapped form |
| Coordinator.FirstIndex | pysync.py:376 | the first index of the name |
| Coordinator.RemoveFirst | pysync.py:376 | removes exactly the first occurrence of the name, the rest keeping their order |
| Coordinator.NotFound | pysync.py:388-390 | one `(name, ERROR, job not found)` entry per left-over name, in order |
| Coordinator.SweepStep | pysync.py:373-382 | reference definition of one pass of the selection loop; `SelectAndRun`, `NamesConsumed` and `NameCount` state its properties |
| Coordinator.Sweep | pysync.py:370-382 | reference definition of the selection loop; `RunJobs`, `ImplicitSelection`, `RemainingInOrder`, `ResultsInJobOrder` and `DummyRunStartsNothing` state its properties |
| Coordinator.Report | pysync.py:370-390 | reference definition of the report; `RunJobs`, `UnknownNameReported` and `NoJobs` state its properties |
| Coordinator.SelectAndRun | pysync.py:372-382 | one pass of the selection loop, skipping with `continue` or consuming the name and running the job, equals one sweep step |
| Coordinator.AppendNotFound | pysync.py:388-390 | the not-found loop appends exactly the not-found entries of the left-over names, in order |
| Coordinator.RunJobs | pysync.py:370-390 | the selection loop with its `continue`s and the not-found loop compute exactly `Report`, and start the vectors of `Sweep` |
| Coordinator.MaxSeverity | pysync.py:392-402 | the result bounds every severity in the report and is one of them, or GOOD for an empty report |
| Coordinator.Pysync | pysync.py:345-402 | wraps the array in place, then reports and takes the maximum as above |
| Coordinator.NamesConsumed | pysync.py:372-376 | the names of the jobs that ran plus the left-over names are exactly the given names |
| Coordinator.NameCount | pysync.py:370-376 | a name runs min(times given, jobs of that name) jobs |
| Coordinator.UnknownNameReported | pysync.py:370-390 | a given name that no job has appears as a `job not found` ERROR entry |
| Coordinator.UnknownNameRemains | pysync.py:372-376 | a given name that no job has is never consumed |
| Coordinator.NotFoundListed | pysync.py:388-390 | every left-over name has its `job not found` entry after the results |
| Coordinator.NonExplicitKeepsOrder | pysync.py:377-379 | the non-explicit filter distributes over concatenation and keeps a single job exactly when it is not explicit, so every non-explicit job is kept, in order |
| Coordinator.ImplicitSelection | pysync.py:377-379 | without names, exactly the non-explicit jobs run, in declared order, and nothing else is reported |
| Coordinator.RemainingInOrder | pysync.py:372-390 | the left-over names keep their command-line order |
| Coordinator.ResultsInJobOrder | pysync.py:372-382 | the names in the report come in declared job order |
| Coordinator.SubsequenceTransitive | pysync.py:376 | keeping the order is transitive over several removals |
| Coordinator.DropOne | pysync.py:376 | removing one element keeps the order of the rest |
| Coordinator.DummyRunStartsNothing | pysync.py:381 | a dummy run starts no process |
| Coordinator.NoJobs | pysync.py:388-390 | with no jobs, every given name is reported not found |

## Left out

- Process spawning and waiting, `os.makedirs` and `os.path.isdir`: these
  are replaced by the oracles `exitCode`, `Env.makeDirs` and `Env.isDir`.
- The filesystem oracle is a fixed snapshot. A directory that one pair
  creates is not seen as existing by a later pair's `isdir` query.
- A failed `os.makedirs` is modelled as `makeDirs` returning false,
  whatever the exception. Off Windows the code's `except WindowsError`
  would itself fail with a name error; the model does not capture that.
- Finding and executing the configuration file, and the checks that the
  backend executable exists: these are I/O and arbitrary code. The settings
  they may override are the fields of `Settings`. Paths found on the search
  path are parameters of `Config.Defaults`.
- Option parsing, all printing and colours, the `--list` listing, the report
  column alignment, `--wait` with `input()` (whose undefined `Colors` name
  is outside the model), `win32api.SetErrorMode`, and the verbose flag
  (output only).
- `KeyboardInterrupt` handling: this is asynchronous interruption.
- Job values of the wrong type (a `lefttrim` that is not an integer, a
  `src` that is neither a string nor a list): the model's types rule them
  out.
