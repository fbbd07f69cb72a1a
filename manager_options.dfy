/**
 * The manager's options (src/manager/manager.rs): the raw options as deserialised, their
 * conversion with the log-output selection, and the database URL `Manager::run` uses.
 */
module ManagerOptions {
  import opened Wrappers
  import opened Strings
  import opened FsModel

  /** `ManagerRawOptions`; the listen address is kept as its text. */
  datatype RawOptions = RawOptions(
    logLevel: string, logFile: Option<string>, databaseUrl: Option<string>, secret: string,
    listen: string, localListenPort: Option<nat>, dataDir: string, tempDir: string)

  /** `LogOutput`: standard output, standard error, nothing, or a file opened at a path. */
  datatype LogOutput = Stdout | Stderr | Nop | File(path: string)

  /** `ManagerOptions`; paths are kept as the strings they were converted from. */
  datatype Options = Options(
    logLevel: string, logFile: LogOutput, databaseUrl: Option<string>, secret: string,
    listen: string, localListenPort: Option<nat>, dataDir: string, tempDir: string)

  /**
   * The log output a `log_file` value selects; `openFile` is what opening a file at that
   * path gives (`LogOutput::file`), used only when a path is selected.
   */
  function SelectOutput(logFile: Option<string>, openFile: Result<(), string>): (r: Result<LogOutput, string>)
    ensures logFile.None? ==> r == Success(Stdout)
    ensures logFile == Some("stdout") || logFile == Some("") ==> r == Success(Stdout)
    ensures logFile == Some("stderr") ==> r == Success(Stderr)
    ensures logFile == Some("off") ==> r == Success(Nop)
    ensures logFile.Some? && logFile.value !in {"stdout", "", "stderr", "off"} ==>
      r == if openFile.Success? then Success(File(logFile.value)) else Failure(openFile.error)
  {
    match logFile
    case None => Success(Stdout)
    case Some(f) =>
      if f == "stdout" || f == "" then Success(Stdout)
      else if f == "stderr" then Success(Stderr)
      else if f == "off" then Success(Nop)
      else if openFile.Success? then Success(File(f))
      else Failure(openFile.error)
  }

  /** `TryFrom<ManagerRawOptions>`: the log output is selected, every other field is copied. */
  function Convert(raw: RawOptions, openFile: Result<(), string>): (r: Result<Options, string>)
    ensures r.Success? <==> SelectOutput(raw.logFile, openFile).Success?
    ensures r.Failure? ==> r.error == SelectOutput(raw.logFile, openFile).error
  {
    var out :- SelectOutput(raw.logFile, openFile);
    Success(Options(raw.logLevel, out, raw.databaseUrl, raw.secret, raw.listen, raw.localListenPort,
                    raw.dataDir, raw.tempDir))
  }

  /** The fields that are only copied survive the conversion unchanged. */
  lemma ConvertCopies(raw: RawOptions, openFile: Result<(), string>)
    requires Convert(raw, openFile).Success?
    ensures var o := Convert(raw, openFile).value;
      && o.logLevel == raw.logLevel && o.databaseUrl == raw.databaseUrl && o.secret == raw.secret
      && o.listen == raw.listen && o.localListenPort == raw.localListenPort
      && o.dataDir == raw.dataDir && o.tempDir == raw.tempDir
      && Success(o.logFile) == SelectOutput(raw.logFile, openFile)
  {
  }

  /** A file is opened only for a path that none of the keywords names. */
  lemma KeywordsNeverOpen(raw: RawOptions, e: string)
    requires raw.logFile.None? || raw.logFile.value in {"stdout", "", "stderr", "off"}
    ensures Convert(raw, Failure(e)).Success? && !Convert(raw, Failure(e)).value.logFile.File?
  {
  }

  /** The database URL: the configured one verbatim, else an sqlite file in the data directory. */
  function DatabaseUrl(configured: Option<string>, dataDir: string): (r: string)
    ensures configured.Some? ==> r == configured.value
  {
    match configured
    case Some(url) => url
    case None => "sqlite://" + Join(dataDir, "data.db") + "?mode=rwc"
  }

  /** Without a configured URL the database is the file "data.db" below the data directory, opened read-write-create. */
  lemma DefaultDatabaseUrl(dataDir: string)
    requires dataDir != [] && !EndsWith(dataDir, "/")
    ensures DatabaseUrl(None, dataDir) == "sqlite://" + dataDir + "/data.db?mode=rwc"
  {
    assert !StartsWith("data.db", "/") by { assert "data.db"[..1] == "d"; }
    assert Join(dataDir, "data.db") == dataDir + "/" + "data.db";
  }

  lemma DefaultDatabaseUrlShape(dataDir: string)
    ensures StartsWith(DatabaseUrl(None, dataDir), "sqlite://")
    ensures EndsWith(DatabaseUrl(None, dataDir), "data.db?mode=rwc")
  {
    var j := Join(dataDir, "data.db");
    var u := "sqlite://" + j + "?mode=rwc";
    assert u[..9] == "sqlite://";
    assert EndsWith(j, "data.db");
    assert j[|j| - 7..] == "data.db";
    assert u[|u| - 16..] == j[|j| - 7..] + "?mode=rwc";
  }
}
