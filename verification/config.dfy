/** The declared jobs and the settings a configuration file may override. */
module Config {

  /** The external sync tool in use. */
  datatype Backend = Robocopy | Rsync

  /** A job's `src` or `dst`: a single path, or a list of them. */
  datatype PathSpec = Single(path: string) | Multiple(paths: seq<string>)

  /** One declared job. Keys the job leaves out take their defaults: empty
      lists, `lefttrim` 0 and every flag false. */
  datatype Job = Job(
    name: string,
    src: PathSpec,
    dst: PathSpec,
    lefttrim: int,
    excludeFiles: seq<string>,
    excludeDirs: seq<string>,
    robocopyArgs: seq<string>,
    rsyncArgs: seq<string>,
    windowsOnly: bool,
    linuxOnly: bool,
    explicit: bool,
    robocopyIgnore: bool)

  /** A job whose `src` and `dst` are both lists, as `do_job` expects. */
  predicate Normalized(job: Job)
  {
    job.src.Multiple? && job.dst.Multiple?
  }

  /** The module-level settings: whether the platform is Windows, which
      backend is used, the backend executables, their base options, the
      global exclusion globs, and the platform's path separator. */
  datatype Settings = Settings(
    windows: bool,
    backend: Backend,
    robocopyCmd: string,
    rsyncCmd: string,
    robocopyOpts: seq<string>,
    rsyncOpts: seq<string>,
    excludeFiles: seq<string>,
    excludeDirs: seq<string>,
    separator: char)

  const DefaultRsyncOpts: seq<string> := [
    "--recursive", "--update", "--links", "--times",
    "--omit-dir-times",
    "--del", "--delete-excluded",
    "--info=BACKUP,DEL,COPY,REMOVE",
    "--modify-window=5",
    "--itemize-changes", "--stats"]

  const DefaultRobocopyOpts: seq<string> := ["/mir", "/xj", "/fft", "/dst", "/ndl", "/r:5", "/w:5"]

  const DefaultExcludeFiles: seq<string> := [
    "*Cache*",
    "thumbs.db",
    "*.tmp", "*.log", "*~", "*.lock", "*.bak",
    "IconCache.db",
    "pagefile.sys", "hiberfil.sys", "swapfile.sys",
    "*NTUSER*",
    "api-ms-win-*", "ext-ms-win-*",
    "*USRCLASS.DAT*", "*UsrClass.dat*"]

  const DefaultExcludeDirs: seq<string> := [
    "$Recycle.Bin", "*cache*", "$GetCurrent", "__gsdata__",
    "System Volume Information", "Diskeeper", "RECYCLER", "Flash Player",
    ".vs", "Cookies", "NetHood", "PrintHood", "Recent", "Local Settings",
    "ReportArchive", "History", "Temporary Internet Files", "Temp", "Recent"]

  /** The built-in settings before a configuration file overrides any of
      them: robocopy on Windows, rsync elsewhere, with the separator of the
      platform (`\` on Windows, `/` elsewhere). The executables are found on
      the search path, which is outside the model, so they are parameters. */
  function Defaults(windows: bool, robocopyCmd: string, rsyncCmd: string): (s: Settings)
    ensures s.windows == windows
    ensures s.backend == (if windows then Robocopy else Rsync)
    ensures s.separator == (if windows then '\\' else '/')
  {
    Settings(windows, if windows then Robocopy else Rsync, robocopyCmd, rsyncCmd,
             DefaultRobocopyOpts, DefaultRsyncOpts, DefaultExcludeFiles, DefaultExcludeDirs,
             if windows then '\\' else '/')
  }
}
