/**
 * What the command line front end reads from its surroundings and what it
 * produces. Every call into the file system, the styling engine or the
 * process environment is a field of `World`.
 */
module CliWorld {
  import opened JsValues
  import opened Paths

  /** How one `comb.processPath(path)` promise settled. */
  datatype Settled = Fulfilled | Rejected(stack: string)

  /**
   * The engine's side of a batch run: the settled promises in the order in
   * which they settled, and the engine's counters once all have settled.
   */
  datatype Report = Report(
    settled: seq<Settled>,
    processed: nat,
    changed: nat,
    tbchanged: Value,
    elapsed: string)

  /** The command line as parsed by commander: `-v`, `-c [path]`, `-d`, `-l` and the paths. */
  datatype Flags = Flags(
    verbose: bool,
    config: Option<string>,
    detect: bool,
    lint: bool,
    args: seq<string>)

  datatype World = World(
    files: set<string>,                    // paths for which `fs.existsSync` holds
    cwd: Path,                             // `process.cwd()`
    env: map<string, string>,              // `process.env`
    libDir: Path,                          // `__dirname` of the front end
    parse: string -> Config,               // `require(path)` of a structured document
    detect: string -> Config,              // `comb.detectInFile(path)`
    stringify: Config -> string,           // `JSON.stringify(config, false, 4)`
    process: (Config, seq<string>) -> Report)  // `comb.configure(config)`, then every `processPath`

  /** How the process ends: `run` returns, `process.exit(code)`, or commander's help. */
  datatype Termination = Returned | Exited(code: int) | HelpShown

  /** The lines written with `console.log` and how the process ends. */
  datatype RunResult = RunResult(output: seq<string>, end: Termination)
}
