/**
 * `CombCli.run`: usage, detect mode, choice of the configuration path,
 * loading and the batch run, in that order.
 */
module CombCli {
  import opened JsValues
  import opened CliWorld
  import opened ConfigSearch
  import opened TemplateMerge
  import opened ConfigLoad
  import opened Batch

  const NoInputPaths := "No input paths specified"

  /** `program.config || this.getConfigPath()`: an empty `--config` value is falsy. */
  function ConfigPathFor(w: World, flags: Flags): (path: string)
    ensures flags.config.Some? && flags.config.value != "" ==> path == flags.config.value
    ensures !(flags.config.Some? && flags.config.value != "") ==> path == GetConfigPath(w)
  {
    if flags.config.Some? && flags.config.value != "" then flags.config.value else GetConfigPath(w)
  }

  /** What `run()` prints and how the process ends. */
  function RunSpec(w: World, flags: Flags): (r: RunResult)
    ensures r.end == HelpShown <==> flags.args == []
    ensures r.end == Exited(0) <==> flags.args != [] && flags.detect
    ensures r.end == HelpShown || r.end == Returned || r.end == Exited(0) || r.end == Exited(1)
    ensures r.end == Returned ==> !flags.detect && LoadSpec(w, flags, ConfigPathFor(w, flags)).Ready?
  {
    if flags.args == [] then RunResult([NoInputPaths], HelpShown)
    else if flags.detect then RunResult([w.stringify(w.detect(flags.args[0]))], Exited(0))
    else
      match LoadSpec(w, flags, ConfigPathFor(w, flags))
      case Fatal(message) => RunResult([message], Exited(1))
      case Ready(config) =>
        Finish(w.process(config, flags.args), Lookup(config, VerboseKey), Lookup(config, LintKey))
  }

  method Run(w: World, flags: Flags) returns (r: RunResult)
    ensures r == RunSpec(w, flags)
  {
    if flags.args == [] {
      return RunResult([NoInputPaths], HelpShown);
    }
    if flags.detect {
      return RunResult([w.stringify(w.detect(flags.args[0]))], Exited(0));
    }
    var configPath := ConfigPathFor(w, flags);
    var loaded := GetConfig(w, flags, configPath);
    if loaded.Fatal? {
      return RunResult([loaded.message], Exited(1));
    }
    var config := loaded.config;
    var report := w.process(config, flags.args);
    r := Finish(report, Lookup(config, VerboseKey), Lookup(config, LintKey));
  }

  /** Without input paths nothing in the world is consulted: only the usage message. */
  lemma NoInputOnlyShowsUsage(w: World, other: World, flags: Flags)
    requires flags.args == []
    ensures RunSpec(w, flags) == RunSpec(other, flags) == RunResult([NoInputPaths], HelpShown)
  {
  }

  /** Detect mode prints the detected options of the first path and exits 0 without loading or processing. */
  lemma DetectShortCircuits(w: World, flags: Flags, files: set<string>, parse: string -> Config,
                            process: (Config, seq<string>) -> Report)
    requires flags.args != [] && flags.detect
    ensures RunSpec(w, flags) == RunResult([w.stringify(w.detect(flags.args[0]))], Exited(0))
    ensures RunSpec(w.(files := files, parse := parse, process := process), flags) == RunSpec(w, flags)
  {
  }

  /** A non-empty `--config` is used as given: the current directory and HOME play no part. */
  lemma ExplicitConfigBypassesSearch(w: World, flags: Flags, cwd: Paths.Path, env: map<string, string>)
    requires flags.config.Some? && flags.config.value != ""
    ensures ConfigPathFor(w, flags) == flags.config.value
    ensures RunSpec(w.(cwd := cwd, env := env), flags) == RunSpec(w, flags)
  {
    var other := w.(cwd := cwd, env := env);
    var path := flags.config.value;
    assert ConfigPathFor(other, flags) == path;
    assert LoadSpec(other, flags, path) == LoadSpec(w, flags, path);
  }

  /** Without `--config` the run loads the nearest `.csscomb.json` at or above the current directory. */
  lemma SearchUsedWithoutExplicitConfig(w: World, flags: Flags, j: int)
    requires !(flags.config.Some? && flags.config.value != "") && Nearest(w, w.cwd, j)
    ensures ConfigPathFor(w, flags) == Candidate(w.cwd[..j])
  {
    SearchFindsNearest(w, w.cwd, j);
  }

  /** `csscomb -c <p> <path>` with no file at `p` prints the not-found message and exits 1. */
  lemma MissingConfigExitsOne(w: World, flags: Flags, p: string)
    requires flags.args != [] && !flags.detect
    requires flags.config == Some(p) && p != "" && p !in w.files
    ensures RunSpec(w, flags) == RunResult([ConfigNotFound(p)], Exited(1))
  {
  }

  lemma TestConfigMessage()
    ensures ConfigNotFound("test/core/csscomb.json") ==
      "Configuration file test/core/csscomb.json was not found."
  {
    var p := "test/core/csscomb.json";
    assert ConfigNotFound(p) == "Configuration file " + p + " was not found.";
  }

  /** The same for `csscomb -c test/core/csscomb.json <path>`. */
  lemma MissingTestConfigExitsOne(w: World, flags: Flags)
    requires flags.args != [] && !flags.detect
    requires flags.config == Some("test/core/csscomb.json") && "test/core/csscomb.json" !in w.files
    ensures RunSpec(w, flags) ==
      RunResult(["Configuration file test/core/csscomb.json was not found."], Exited(1))
  {
    TestConfigMessage();
    MissingConfigExitsOne(w, flags, "test/core/csscomb.json");
  }

  /**
   * Without `--config`, a search that ends with no existing file has fallen
   * back to the package default, and the run reports that path missing.
   */
  lemma MissingSearchedConfigExitsOne(w: World, flags: Flags)
    requires flags.args != [] && !flags.detect
    requires !(flags.config.Some? && flags.config.value != "")
    requires GetConfigPath(w) !in w.files
    ensures GetConfigPath(w) == DefaultPath(w)
    ensures RunSpec(w, flags) == RunResult([ConfigNotFound(DefaultPath(w))], Exited(1))
  {
  }

  /** A truthy template that names no existing file ends the run with exit 1 before any path is processed. */
  lemma MissingTemplateExitsOne(w: World, flags: Flags, process: (Config, seq<string>) -> Report)
    requires flags.args != [] && !flags.detect
    requires ConfigPathFor(w, flags) in w.files
    requires var doc := Document(w, ConfigPathFor(w, flags));
             Truthy(Lookup(doc, TemplateKey)) && !TemplateExists(w, doc)
    ensures var doc := Document(w, ConfigPathFor(w, flags));
            RunSpec(w, flags) == RunResult([TemplateNotFound(Lookup(doc, TemplateKey))], Exited(1))
    ensures RunSpec(w.(process := process), flags) == RunSpec(w, flags)
  {
    SearchOnlyReadsFilesAndEnv(w, w.(process := process), w.cwd);
  }

  /**
   * With `--lint` the run returns normally exactly when every path was
   * processed and the engine found nothing to change; in every other case
   * that reaches the batch it exits 1.
   */
  lemma LintRunGate(w: World, flags: Flags)
    requires flags.args != [] && !flags.detect && flags.lint
    requires LoadSpec(w, flags, ConfigPathFor(w, flags)).Ready?
    ensures var config := LoadSpec(w, flags, ConfigPathFor(w, flags)).config;
            var report := w.process(config, flags.args);
            && (RunSpec(w, flags).end == Returned <==>
                 AllFulfilled(report.settled) && !Truthy(report.tbchanged))
            && (RunSpec(w, flags).end != Returned ==> RunSpec(w, flags).end == Exited(1))
  {
    FlagsWin(w, flags, ConfigPathFor(w, flags));
  }
}
