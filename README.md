# viz front controller, modelled in Dafny

viz reads a JSON, TOML or YAML document and prints it as colourised, indented JSON-style
text. This project models the decision logic of its front controller, `src/app.rs`:

- the colour decision (`configure_colors`);
- the choice of input source, stdin or a file, and its format tag
  (`get_content_and_extension`, `get_from_stdin`, `get_file_content`);
- indent validation (`get_indent`);
- dispatch to the JSON, TOML or YAML processor (`get_parsed_data`);
- the top-level print loop over the root object's entries (`print_parsed_data`);
- the order of these steps in `run`.

Files:

- `basics.dfy` (module `Basics`): `Option` and `Result`.
- `values.dfy` (module `Values`): a stand-in for the parsed value. Its variants are those of
  the documented design (null, bool, number, string, array, object). Objects keep their
  entries in iteration order.
- `app.dfy` (module `App`): the operations.
  - The outside world comes in as values. The arguments are a record of optional fields.
    The `NO_COLOR` lookup, the stdin read outcome and the file table are inputs, and so
    are the three processors, as functions.
  - Output is a trace of `Event`s. `Println("{")` and `Println("}")` are the two lines
    printed. Each call to the nested printer `print_object_data` is recorded with its
    arguments. The internal-error message is recorded too.
  - `PrintParsedData` is the imperative loop of the source. It is a method that computes
    `last` as `i + 1 == total` and appends one event per entry. It is proved equal to
    `TopLevelTrace`, whose `EntryCalls` defines "last" differently: it is the entry with
    no entry after it.
- `app_props.dfy` (module `AppProperties`): lemmas about lower-casing, dispatch, the last
  flag and key order of the top-level trace, and the step order of `run`.

Where the design description and the code differ, the model follows the code:

- The design says any value of `NO_COLOR` turns colour off. The code tests
  `std::env::var("NO_COLOR").is_ok()`. That is false when the variable is set to a value
  that is not valid Unicode, so the flag then decides. `EnvVar.NotUnicode` models this case.
- The design says a file without a recognised extension gives "unsupported file format".
  That holds for an unknown extension. A readable file with no extension at all makes the
  code panic at `unwrap` (src/app.rs:76-80), and the model makes this a precondition:
  `HasExtensionIfReadable`.
- Stdin is read before the language tag is checked. A read failure is therefore reported
  even when the tag is also missing.

## Model

| member | source | states |
|---|---|---|
| `App.ColorsEnabled` | src/app.rs:30-38 | colour is on exactly when `NO_COLOR` is not readable from the environment and `--no-color` is not given; a readable `NO_COLOR` overrides the flag |
| `App.GetFromStdin` | src/app.rs:53-64 | a read failure gives the stdin-read error (checked first); a missing language gives "language is not specified for stdin"; otherwise the text and the tag exactly as given |
| `App.GetFileContent` | src/app.rs:66-85 | a path that does not exist gives "file not found" and nothing else does; a read failure gives the read error; success returns the file's text and its extension lower-cased |
| `App.GetContentAndExtension` | src/app.rs:40-51 | a missing or empty path reads stdin; any other path reads that file |
| `App.GetIndent` | src/app.rs:87-97 | accepted exactly when absent or at most 10; absent gives 2; an accepted value is returned unchanged and is at most 10; a rejection is the indent error |
| `App.Lift` | src/app.rs:100-109 | a processor's value is passed through; its failure message is passed on unchanged |
| `App.GetParsedData` | src/app.rs:99-110 | the result is "unsupported file format." exactly when the tag is not json, toml, yaml or yml; otherwise it is the selected processor's outcome, following the reference table `FormatTable` |
| `App.EntryCallsAt` | src/app.rs:115-119 | the k-th printer call carries the k-th entry, depth and width both equal to the indent, the top flag, and `last` exactly when k + 1 equals the number of entries |
| `App.PrintParsedData` | src/app.rs:112-126 | the loop's trace and status equal `TopLevelTrace`: braces around one call per entry in map order for an object, otherwise the internal-error message and exit status 1 |
| `App.Run` | src/app.rs:16-28 | the colour override is the `NO_COLOR`/flag rule; the trace and outcome are the input, indent, parse and print steps in that order, stopping at the first error |
| `AppProperties.ToLowerHasNoCapitals` | src/app.rs:76-82 | the lower-cased extension contains no ASCII capital |
| `AppProperties.ToLowerIdempotent` | src/app.rs:76-82 | lower-casing an already lower-cased extension changes nothing |
| `AppProperties.FileExtensionIsLowerCase` | src/app.rs:66-85 | the extension returned for a file is its own lower-case form |
| `AppProperties.UpperCaseFileExtensionIsSupported` | src/app.rs:76-84 | a file with extension "YML" is reported with extension "yml", which selects the YAML processor |
| `AppProperties.EmptyPathMeansStdin` | src/app.rs:41-50 | no path and the empty path both read stdin with the given language |
| `AppProperties.StdinReadFailureReportedFirst` | src/app.rs:54-63 | a failed stdin read is reported even when the language tag is also missing |
| `AppProperties.StdinTagIsVerbatim` | src/app.rs:59-60 | the stdin tag "JSON" is returned unchanged and is then unsupported |
| `AppProperties.YamlAliases` | src/app.rs:103 | "yaml" and "yml" both run the YAML processor |
| `AppProperties.UnsupportedRunsNoProcessor` | src/app.rs:104-106 | for an unsupported tag the outcome is the same whatever the processors do |
| `AppProperties.OnlySelectedProcessorMatters` | src/app.rs:100-107 | for a supported tag the outcome depends only on the processor that tag selects |
| `AppProperties.EntryCallsCountLast` | src/app.rs:115-119 | among the entry calls, exactly one is flagged last for a non-empty object and none for an empty one |
| `AppProperties.EntryCallsKeys` | src/app.rs:115-119 | the entry calls carry the object's keys in map order |
| `AppProperties.ObjectTrace` | src/app.rs:113-121 | an object prints "{", then one call per entry in order with depth = indent, width = indent and the top flag set, last only on the final entry, then "}" |
| `AppProperties.ObjectTraceCountsAndOrder` | src/app.rs:114-121 | the whole top-level trace of an object has one last flag if the object has entries and none if it is empty, and passes the keys in map order |
| `AppProperties.CalledKeysUnique` | src/app.rs:115-119 | with unique keys, the printer is called once per entry and never twice with the same key |
| `AppProperties.EmptyObjectTrace` | src/app.rs:114-121 | an empty object prints just "{" and "}" and makes no printer call |
| `AppProperties.NonObjectRootExits` | src/app.rs:122-125 | a root that is not an object prints no brace, only the error message, and exits with status 1 |
| `AppProperties.InputErrorComesFirst` | src/app.rs:21-23 | an input error ends the run before the indent or the parser is consulted |
| `AppProperties.IndentErrorPreventsParsing` | src/app.rs:21-23 | with input acquired, an indent above 10 fails the run with the indent error whatever the processors would do, and prints nothing |
| `AppProperties.FailedRunPrintsNothing` | src/app.rs:21-25 | a run that returns an error has printed nothing |
| `AppProperties.RunEndings` | src/app.rs:23-25 | a finished run printed "{" first and "}" last; an exiting run printed only the internal-error message and exits with status 1 |
| `AppProperties.FileRunPrintsParsedObject` | src/app.rs:16-28 | a readable file with a supported extension that parses to an object is printed as that object with the default indent 2 |

## Left out

- Reading stdin and files, `Path::exists` and `Path::extension` are I/O and standard-library calls. Their outcomes are inputs: a read result, a file table whose keys are the existing paths, and an optional extension per file.
- Argument parsing with `clap` (`build_cli`, `ArgMatches`) is a foreign library. The arguments are the record `Args`.
- The process-wide colour override of the `colored` crate is not modelled. Only the boolean passed to it is.
- The JSON, TOML and YAML processors wrap parsing libraries and are not part of this model. They are function parameters returning a value or a message.
- `crate::prints::print_object_data` and the internals of `VizValue` are not part of this model. The calls are recorded in the trace, but the text they print is not. So indentation, commas and colours of nested values are not modelled.
- `Messages::error`, `exit` and `anyhow` formatting are process plumbing. They become an `ErrorMessage` event, an exit status and an `Error` kind; `App.Message` keeps the source's error texts. Whether a line goes to stdout or stderr is not distinguished.
- What the binary's entry point does with the error `run` returns is not part of this model.
- `get_from_stdin` fills its `String` buffer by a read; that read is an input here, so the function is modelled on values.
- App.GetFileContent: lower-cases ASCII letters only; Rust's `to_lowercase` also lowers non-ASCII letters, which the model does not capture.
- App.GetFileContent: a readable file without an extension, or whose extension is not valid Unicode, panics in the source; the model excludes it by its precondition instead of modelling the panic.
