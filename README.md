# csscomb command line front end, modelled in Dafny

This project models the decision logic of csscomb's command line front end
(`lib/cli.js`). It covers four pieces:

- **Configuration search** (`getConfigPath`). The front end looks for
  `.csscomb.json` in the current directory, then in each directory above it.
  The search includes HOME or the root, whichever it reaches first. If no
  file is found it falls back to `config/csscomb.json` in the package.
- **Configuration loading** (`getConfig`). A missing file is fatal. A path
  ending in `.css` is detected from; any other path is required as a
  structured document. A truthy `template` option triggers the template
  merge. Then `--verbose` and `--lint` force the matching options to true.
- **Template merge** (`extendTemplate`). The template stylesheet's detected
  options fill every option the configuration leaves falsy. This is modelled
  as a loop over the template's keys.
- **Batch outcome** (`processFiles`, `run`). It covers the usage message for
  no paths, detect mode, an explicit `--config`, and the verbose summary. It
  also decides the exit: 1 on any failed path, 1 in lint mode when the engine
  saw changes to make, and a normal return otherwise.

Everything the front end reads from outside is a field of `CliWorld.World`:
- the set of existing paths (`fs.existsSync`);
- the current directory and the environment;
- the directory of the front end (`__dirname`);
- `require` of a structured document;
- the engine's `detectInFile`;
- `JSON.stringify`;
- the engine's batch report: the settled promises and the `processed`,
  `changed` and `tbchanged` counters.

Paths are sequences of segments below the root (`Paths`). They are compared
as text where the source compares strings: HOME is matched against the
directory's text, and the root is found by comparing a directory's text
with its parent's. Option values are a small datatype of JavaScript values
with JavaScript truthiness (`JsValues`). A run ends as a `RunResult`: the
printed lines, and either a normal return, `process.exit(code)`, or
commander's help.

Files, one module each: `js_values.dfy`, `paths.dfy`, `cli_world.dfy`,
`config_search.dfy`, `template_merge.dfy`, `config_load.dfy`, `batch.dfy`,
`comb_cli.dfy`.

The model follows the code in three places:
- The template fills options whose base value is *falsy*, not only options
  that are missing. A base `false`, `0` or `""` is overwritten
  (lib/cli.js:134).
- With no input paths, the exit is left to commander's `help()`. The code
  does not choose an exit code itself (lib/cli.js:42-45).
- `getConfigPath` is a recursion, not a loop (lib/cli.js:90).

## Model

| member | source | states |
|---|---|---|
| `JsValues.Truthy` | lib/cli.js:134 | a value is falsy exactly when it is `undefined`, `null`, `false`, `0` or `""`, as the tests at lines 113, 134, 152 and 158 read it |
| `JsValues.Lookup` | lib/cli.js:134 | `config[attrname]`, and `config.template` at line 113, read an own property's value; a property the configuration does not have is never truthy |
| `JsValues.Display` | lib/cli.js:128 | `'...' + v` renders a string verbatim, a non-negative number as digits that read back to it, and every other value as non-empty text |
| `JsValues.NatToString` | lib/cli.js:154-155 | the counter's decimal text is non-empty, all digits, and starts with `0` only for zero |
| `JsValues.DecimalRoundTrip` | lib/cli.js:154-155 | reading the decimal text of a counter back gives the counter |
| `JsValues.EndsWithMeansConcatenation` | lib/cli.js:107 | a path matches `/\.css$/` exactly when it is some text followed by `.css` |
| `Paths.Join` | lib/cli.js:72 | `path.join(dir, name)`, here and at line 89, is one segment deeper than `dir`, with `name` as its last segment |
| `Paths.Dirname` | lib/cli.js:83-84 | the root is its own parent; for any other directory, joining the parent with the last segment gives the directory back |
| `Paths.DirnameOfJoin` | lib/cli.js:83 | the directory of `path.join(dir, name)` is `dir` |
| `Paths.RootIsItsOwnParent` | lib/cli.js:79-85 | a directory's text equals its parent's text exactly for the root (and for the degenerate one-empty-segment path) |
| `ConfigSearch.Home` | lib/cli.js:66 | a non-empty HOME wins; otherwise a non-empty HOMEPATH; otherwise USERPROFILE's value, even an empty one; undefined exactly when HOME and HOMEPATH are unset or empty and USERPROFILE is unset |
| `ConfigSearch.IsHome` | lib/cli.js:85 | `dirname === HOME` holds only for a defined, non-empty HOME equal to the directory's text |
| `ConfigSearch.IsRoot` | lib/cli.js:83-85 | `dirname === parentDirname` holds exactly for the root (and the degenerate one-empty-segment path) |
| `ConfigSearch.Stops` | lib/cli.js:85 | `dirname === HOME` or `dirname === parentDirname` ends the search exactly at HOME's directory or at the root |
| `ConfigSearch.Candidate` | lib/cli.js:89 | `path.join(parentDirname, '.csscomb.json')`, and the first candidate at line 72, is an absolute path ending in `/.csscomb.json` |
| `ConfigSearch.HasConfig` | lib/cli.js:75 | `fs.existsSync(configPath)` for the candidate: when it holds, some existing file is named `.csscomb.json` |
| `ConfigSearch.DefaultPath` | lib/cli.js:70 | computes `path.join(__dirname, '../config/csscomb.json')`; the result is absolute and ends in `/config/csscomb.json` |
| `ConfigSearch.SearchFrom` | lib/cli.js:72-90 | an existing candidate is returned unchanged; every result is an existing file or the package default |
| `ConfigSearch.GetConfigPath` | lib/cli.js:65-91 | a `.csscomb.json` in the current directory is returned; otherwise the result is an existing file or the default |
| `ConfigSearch.SearchOnlyReadsFilesAndEnv` | lib/cli.js:65-91 | the search result depends only on which files exist, the environment and the package location |
| `ConfigSearch.SearchFindsNearest` | lib/cli.js:72-90 | when the nearest searched ancestor with a `.csscomb.json` is `dir[..j]`, that file is returned and no file farther up |
| `ConfigSearch.SearchFallsBack` | lib/cli.js:83-85 | when no searched directory, up to and including HOME or the root, has a `.csscomb.json`, the default path is returned |
| `ConfigSearch.SearchIsNearestOrDefault` | lib/cli.js:72-90 | every search ends with the nearest searched file, or with the default when no searched directory has one |
| `ConfigSearch.Probes` | lib/cli.js:75-90 | the search checks at least one and at most depth + 1 candidates, so it terminates |
| `ConfigSearch.ProbesBelowHome` | lib/cli.js:77-85 | starting D levels below HOME, the search checks at most D + 1 candidates |
| `TemplateMerge.Merged` | lib/cli.js:133-135 | keys are the union of both; a truthy base option is kept; a falsy or missing base option takes the template's value; options outside the template are unchanged |
| `TemplateMerge.MergedKeepsTemplateTruths` | lib/cli.js:133-135 | every truthy template option is truthy after the merge |
| `TemplateMerge.MergeIdempotent` | lib/cli.js:133-135 | merging the same template twice gives the same configuration as once |
| `TemplateMerge.TemplateExists` | lib/cli.js:127 | `fs.existsSync(config.template)` holds exactly when the template value is the text of an existing path |
| `TemplateMerge.TemplateNotFound` | lib/cli.js:128 | the message is `Template configuration file `, the template as string concatenation renders it, then ` was not found.`; a string template appears verbatim |
| `TemplateMerge.ExtendTemplate` | lib/cli.js:124-137 | a template that is not an existing file is fatal with `Template configuration file <t> was not found.`; otherwise the loop, in any key order, yields exactly the merged configuration |
| `ConfigLoad.ConfigNotFound` | lib/cli.js:103 | the message is `Configuration file `, the path verbatim, then ` was not found.`, so the path can be read back from it |
| `ConfigLoad.IsStylesheet` | lib/cli.js:107 | `configPath.match(/\.css$/)` holds exactly when the path is some text followed by `.css` |
| `ConfigLoad.Document` | lib/cli.js:107-111 | a path ending in `.css` is detected from; every other path is required as a structured document |
| `ConfigLoad.WithFlags` | lib/cli.js:113-115 | a supplied flag sets its option to true; without the flag the option is left as loaded; no other option changes |
| `ConfigLoad.LoadSpec` | lib/cli.js:98-117 | what `getConfig` ends with: a failure prints only the missing-path or the missing-template message; a success needs an existing path, and every truthy option of the document stays truthy, and unchanged unless it is `verbose` or `lint` |
| `ConfigLoad.GetConfig` | lib/cli.js:98-117 | the method's result is the load specification: existence check, `.css` dispatch, template merge, then flags |
| `ConfigLoad.LoadFailsOnlyOnMissingFiles` | lib/cli.js:98-117 | loading fails exactly when the path is missing or a truthy template names no existing file; a missing path gives `Configuration file <path> was not found.` |
| `ConfigLoad.FlagsWin` | lib/cli.js:113-115 | after loading and merging, `--verbose` and `--lint` make their options true whatever the document or template says |
| `ConfigLoad.NoFlagsKeepDocument` | lib/cli.js:110-116 | without flags or template the loaded configuration is the document itself |
| `ConfigLoad.StylesheetNeverParsed` | lib/cli.js:107-108 | a `.css` configuration path never goes through `require` |
| `ConfigLoad.DocumentNeverDetected` | lib/cli.js:107-113 | a non-`.css` document without a template never goes through detection |
| `Batch.AllFulfilled` | lib/cli.js:150-151 | `vow.all` fulfils exactly when no promise was rejected |
| `Batch.FirstRejected` | lib/cli.js:150-165 | there is no rejection reason exactly when every path succeeded; otherwise it is the stack of the first rejection |
| `Batch.Noun` | lib/cli.js:154-155 | `'file' + (n === 1 ? '' : 's')` starts with `file` and is exactly `file` for a count of 1 |
| `Batch.CountLine` | lib/cli.js:154-155 | a summary line starts with the count's decimal text and ends with a space and the verb |
| `Batch.CountLineReadsBack` | lib/cli.js:154-155 | a summary line starts with its count, reads `file` exactly when the count is 1, and `files` for every other count |
| `Batch.Summary` | lib/cli.js:152-156 | four lines: a blank line, `<processed> file(s) processed`, `<changed> file(s) fixed`, then `spent: <elapsed>`; the counts read back to the engine's counters |
| `Batch.Finish` | lib/cli.js:151-165 | the batch returns normally exactly when no path failed and not (lint and changes); otherwise it exits 1; a failure prints only the first rejection's stack; a success prints the summary exactly in verbose mode |
| `Batch.OneFailureFailsBatch` | lib/cli.js:162-165 | one rejected path makes the whole batch exit 1 with no summary |
| `Batch.LintOnlyDecidesExit` | lib/cli.js:158-160 | with changes to make, lint exits 1 and the same batch without lint returns; the printed lines are identical |
| `Batch.VerboseOnlyDecidesOutput` | lib/cli.js:152-160 | verbose mode never changes how the batch ends |
| `CombCli.RunSpec` | lib/cli.js:34-57 | what `run()` ends with: help exactly without input paths, exit 0 exactly in detect mode, otherwise a normal return or exit 1; a normal return needs a configuration that loaded |
| `CombCli.Run` | lib/cli.js:34-57 | the method's result is the run specification: usage, detect, config path, loading, batch |
| `CombCli.NoInputOnlyShowsUsage` | lib/cli.js:42-45 | no input paths print `No input paths specified` and show help, whatever the world holds |
| `CombCli.DetectShortCircuits` | lib/cli.js:48-51 | detect mode prints the detected options of the first path and exits 0; files, `require` and the batch play no part |
| `CombCli.ExplicitConfigBypassesSearch` | lib/cli.js:53 | a non-empty `--config` is used as given; the current directory and the environment do not affect the run |
| `CombCli.SearchUsedWithoutExplicitConfig` | lib/cli.js:53 | without `--config` the run loads the nearest searched `.csscomb.json` |
| `CombCli.ConfigPathFor` | lib/cli.js:53 | a non-empty `--config` value is the path; an absent or empty one leaves the choice to the search |
| `CombCli.MissingConfigExitsOne` | lib/cli.js:102-105 | `--config <p>` naming no existing file prints `Configuration file <p> was not found.` and exits 1, for every such `p` |
| `CombCli.MissingTestConfigExitsOne` | test/core/cli.js:67-81 | `-c test/core/csscomb.json` naming no file prints `Configuration file test/core/csscomb.json was not found.` and exits 1 |
| `CombCli.MissingSearchedConfigExitsOne` | lib/cli.js:53-54 | without `--config`, a search ending with no existing file has returned the package default, and the run prints it as not found and exits 1 |
| `CombCli.MissingTemplateExitsOne` | lib/cli.js:113-130 | a truthy `template` naming no existing file prints `Template configuration file <t> was not found.` and exits 1; no path is processed |
| `CombCli.LintRunGate` | lib/cli.js:53-56 | with `--lint`, a run that reaches the batch returns normally exactly when every path succeeded and the engine saw nothing to change; otherwise it exits 1 |

## Left out

- Argument parsing by commander, and the version and help text
  (lib/cli.js:19-28). The parsed flags are given as `Flags`. A `-c` with no
  value, which commander turns into `true`, is not modelled.
- The engine (`./csscomb`): `configure`, `detectInFile`, `processPath` and
  the counters they keep. These are foreign calls and are world fields. So
  whether `processed` equals the number of paths is up to the engine.
- Exceptions thrown synchronously by the engine, by `require` or by
  `JSON.stringify`. Examples are detect mode on a missing file, which the
  source does not check (lib/cli.js:48-49), and a document that does not parse.
- `require`'s module resolution and caching. A structured document is
  whatever the world's `parse` gives for the path.
- `fs.existsSync` beyond membership in a set of paths. A non-string
  `template` value never names an existing file.
- Windows paths and non-normalised directory texts: paths are POSIX
  segment sequences.
- Completion order and asynchrony of `vow.all`. The settled results are
  given in the order they settled, so the first rejection in the list is
  the one reported.
- `console.time` and `console.timeEnd`: the elapsed time is given text.
- The real `process.exit`, and the exit code of commander's `help()`. These
  are outcome values.
- `getConfigPath`'s optional argument: `run` only calls it without one.
- JavaScript numbers other than integers (fractions, NaN, -0), arrays as
  option values, and inherited properties of JavaScript objects: both those
  `for...in` enumerates and those a property read such as `!config[attrname]`
  sees (`constructor`, `toString`). `Lookup` treats a property the
  configuration does not own as undefined.
- In-place mutation of the configuration object and its aliasing with
  `require`'s cache. The configuration is a map value that the methods
  reassign.
- test/core/cli.js itself, which spawns processes. It is used only for the
  expected messages.
