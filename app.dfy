/** The front controller of viz (src/app.rs): it settles the colour override, acquires the
    input text and its format tag, validates the indent, dispatches to a format processor and
    hands the parsed root object to the printer.

    The outside world is passed in as values: the command-line arguments as a record, the
    `NO_COLOR` lookup, the outcome of reading stdin and of each file, and the three format
    processors as total functions. Output is a trace of the lines printed and of the calls
    made to the nested object printer. */
module App {
  import opened Basics
  import opened Values

  // ---------------------------------------------------------------- inputs and errors

  /** The parsed command line: `path`, `language`, `indent` and the `no-color` flag. */
  datatype Args = Args(path: Option<string>, language: Option<string>, indent: Option<nat>, noColor: bool)

  /** What `std::env::var("NO_COLOR")` reports: a value, absence, or a value that is not Unicode. */
  datatype EnvVar = Present(value: string) | NotPresent | NotUnicode

  /** The outcome of reading a whole stream into a string. */
  datatype ReadOutcome = Read(text: string) | ReadFailed(reason: string)

  /** A file that exists: what reading it gives, and its extension (None when the path has no
      extension or the extension is not valid Unicode). */
  datatype FileEntry = FileEntry(content: ReadOutcome, extension: Option<string>)

  /** Standard input and the file system; a path exists exactly when it is a key of `files`. */
  datatype World = World(stdin: ReadOutcome, files: map<string, FileEntry>)

  /** The input text with the format tag that selects its processor. */
  datatype Input = Input(contents: string, extension: string)

  /** The JSON, TOML and YAML processors: each turns text into a value or fails with a message. */
  datatype Processors = Processors(
    json: string -> Result<Value, string>,
    toml: string -> Result<Value, string>,
    yaml: string -> Result<Value, string>)

  datatype Error =
    | StdinReadFailed(reason: string)
    | LanguageNotSpecified
    | FileNotFound
    | FileReadFailed(reason: string)
    | IndentTooLarge
    | UnsupportedFormat
    | ParseFailed(message: string)

  /** The text each error is reported with. */
  function Message(e: Error): string
  {
    match e
    case StdinReadFailed(reason) => "failed to read from stdin: " + reason
    case LanguageNotSpecified => "language is not specified for stdin"
    case FileNotFound => "file not found"
    case FileReadFailed(reason) => "failed to read file: " + reason
    case IndentTooLarge => "indentation level must be less than or equal to 10."
    case UnsupportedFormat => "unsupported file format."
    case ParseFailed(message) => message
  }

  // ---------------------------------------------------------------- colours

  /** The colour override `configure_colors` installs: a readable `NO_COLOR` turns colour off
      whatever the flag says; otherwise colour is on exactly when `--no-color` is not given. */
  function ColorsEnabled(noColorVar: EnvVar, noColorFlag: bool): (on: bool)
    ensures on <==> !noColorVar.Present? && !noColorFlag
  {
    if noColorVar.Present? then false else !noColorFlag
  }

  // ---------------------------------------------------------------- input acquisition

  /** ASCII lower-casing of one character. */
  function LowerChar(c: char): char
  {
    if 'A' <= c <= 'Z' then (c as int + 32) as char else c
  }

  /** Lower-casing of a string, character by character. */
  function ToLower(s: string): string
  {
    if s == [] then [] else [LowerChar(s[0])] + ToLower(s[1..])
  }

  /** Reading from stdin: the stream is read first, then the language tag is required and
      returned as given. */
  function GetFromStdin(stdin: ReadOutcome, language: Option<string>): (r: Result<Input, Error>)
    ensures r.Ok? <==> stdin.Read? && language.Some?
    ensures stdin.ReadFailed? ==> r == Err(StdinReadFailed(stdin.reason))
    ensures stdin.Read? && language.None? ==> r == Err(LanguageNotSpecified)
    ensures r.Ok? ==> r.value.contents == stdin.text && r.value.extension == language.value
  {
    match stdin
    case ReadFailed(reason) => Err(StdinReadFailed(reason))
    case Read(contents) =>
      match language
      case Some(lang) => Ok(Input(contents, lang))
      case None => Err(LanguageNotSpecified)
  }

  /** A file that exists and can be read has an extension; otherwise the source panics. */
  predicate HasExtensionIfReadable(path: string, files: map<string, FileEntry>)
  {
    path in files && files[path].content.Read? ==> files[path].extension.Some?
  }

  /** Reading a file: existence is checked before reading; the extension is lower-cased. */
  function GetFileContent(path: string, files: map<string, FileEntry>): (r: Result<Input, Error>)
    requires HasExtensionIfReadable(path, files)
    ensures path !in files <==> r == Err(FileNotFound)
    ensures r.Ok? <==> path in files && files[path].content.Read?
    ensures path in files && files[path].content.ReadFailed? ==>
              r == Err(FileReadFailed(files[path].content.reason))
    ensures r.Ok? ==> r.value.contents == files[path].content.text
    ensures r.Ok? ==> r.value.extension == ToLower(files[path].extension.value)
  {
    if path !in files then Err(FileNotFound)
    else
      match files[path].content
      case ReadFailed(reason) => Err(FileReadFailed(reason))
      case Read(contents) => Ok(Input(contents, ToLower(files[path].extension.value)))
  }

  /** The path argument with its default: a missing path reads as the empty string. */
  function PathOrEmpty(args: Args): string
  {
    match args.path
    case Some(p) => p
    case None => ""
  }

  predicate InputWellFormed(args: Args, world: World)
  {
    PathOrEmpty(args) != "" ==> HasExtensionIfReadable(PathOrEmpty(args), world.files)
  }

  /** Choosing the input source: an empty or missing path means stdin, any other path a file. */
  function GetContentAndExtension(args: Args, world: World): (r: Result<Input, Error>)
    requires InputWellFormed(args, world)
    ensures (args.path.None? || args.path.value == "") ==> r == GetFromStdin(world.stdin, args.language)
    ensures (args.path.Some? && args.path.value != "") ==> r == GetFileContent(args.path.value, world.files)
  {
    var path := PathOrEmpty(args);
    if path == "" then GetFromStdin(world.stdin, args.language)
    else GetFileContent(path, world.files)
  }

  // ---------------------------------------------------------------- indent

  const DefaultIndent: nat := 2
  const MaxIndent: nat := 10

  /** The indent width: 2 when not given, rejected above 10, otherwise unchanged. */
  function GetIndent(indent: Option<nat>): (r: Result<nat, Error>)
    ensures r.Ok? <==> indent.None? || indent.value <= 10
    ensures r.Ok? ==> r.value <= 10
    ensures indent.None? ==> r == Ok(2)
    ensures indent.Some? && r.Ok? ==> r.value == indent.value
    ensures r.Err? ==> r.error == IndentTooLarge
  {
    var n := match indent case Some(k) => k case None => DefaultIndent;
    if n > MaxIndent then Err(IndentTooLarge) else Ok(n)
  }

  // ---------------------------------------------------------------- format dispatch

  datatype Format = Json | Toml | Yaml

  /** The formats the front controller knows, by extension or language tag. */
  const FormatTable: map<string, Format> := map["json" := Json, "toml" := Toml, "yaml" := Yaml, "yml" := Yaml]

  function Processor(p: Processors, f: Format): string -> Result<Value, string>
  {
    match f
    case Json => p.json
    case Toml => p.toml
    case Yaml => p.yaml
  }

  /** A processor's failure is passed on with its message unchanged. */
  function Lift(out: Result<Value, string>): (r: Result<Value, Error>)
    ensures out.Ok? <==> r.Ok?
    ensures out.Ok? ==> r.value == out.value
    ensures out.Err? ==> r.error == ParseFailed(out.error)
  {
    match out
    case Ok(v) => Ok(v)
    case Err(m) => Err(ParseFailed(m))
  }

  /** Dispatch on the extension: "json", "toml", and "yaml" or "yml"; any other tag is
      unsupported and no processor runs. */
  function GetParsedData(contents: string, extension: string, p: Processors): (r: Result<Value, Error>)
    ensures r == Err(UnsupportedFormat) <==> extension !in FormatTable
    ensures extension in FormatTable ==> r == Lift(Processor(p, FormatTable[extension])(contents))
  {
    if extension == "json" then Lift(p.json(contents))
    else if extension == "toml" then Lift(p.toml(contents))
    else if extension == "yaml" || extension == "yml" then Lift(p.yaml(contents))
    else Err(UnsupportedFormat)
  }

  // ---------------------------------------------------------------- top-level printing

  /** What the front controller emits: a printed line, an error message, or one call to the
      nested printer `print_object_data(key, value, depth, indent, last, top)`. */
  datatype Event =
    | Println(text: string)
    | ErrorMessage(text: string)
    | PrintObjectData(key: string, value: Value, depth: nat, indent: nat, last: bool, top: bool)

  /** Whether printing returned normally or ended the process. */
  datatype Status = Returned | Exited(code: int)

  const InternalErrorMessage: string := "internal error: parsed data is not a valid object."

  /** The printer calls for an object's entries, in order; an entry is last when no entry
      follows it. */
  function EntryCalls(entries: seq<(string, Value)>, indent: nat): (calls: seq<Event>)
    ensures |calls| == |entries|
  {
    if entries == [] then []
    else [PrintObjectData(entries[0].0, entries[0].1, indent, indent, |entries| == 1, true)]
         + EntryCalls(entries[1..], indent)
  }

  /** What printing the parsed root produces: an object between braces, anything else an
      internal error and exit status 1. */
  function TopLevelTrace(data: Value, indent: nat): (seq<Event>, Status)
  {
    match data
    case Object(entries) => ([Println("{")] + EntryCalls(entries, indent) + [Println("}")], Returned)
    case _ => ([ErrorMessage(InternalErrorMessage)], Exited(1))
  }

  lemma {:induction false} EntryCallsAt(entries: seq<(string, Value)>, indent: nat, k: nat)
    requires k < |entries|
    ensures EntryCalls(entries, indent)[k]
            == PrintObjectData(entries[k].0, entries[k].1, indent, indent, k + 1 == |entries|, true)
  {
    if k > 0 {
      EntryCallsAt(entries[1..], indent, k - 1);
    }
  }

  /** `print_parsed_data`: the entries are collected, then each is handed to the nested printer
      with `last` computed as `i + 1 == total`. */
  method PrintParsedData(data: Value, indent: nat) returns (trace: seq<Event>, status: Status)
    ensures (trace, status) == TopLevelTrace(data, indent)
  {
    if data.Object? {
      trace := [Println("{")];
      var entries := data.entries;
      var total := |entries|;
      ghost var calls := EntryCalls(entries, indent);
      var i := 0;
      while i < total
        invariant 0 <= i <= total
        invariant trace == [Println("{")] + calls[..i]
      {
        var last := i + 1 == total;
        EntryCallsAt(entries, indent, i);
        trace := trace + [PrintObjectData(entries[i].0, entries[i].1, indent, indent, last, true)];
        assert calls[..i + 1] == calls[..i] + [calls[i]];
        i := i + 1;
      }
      assert calls[..total] == calls;
      trace := trace + [Println("}")];
      status := Returned;
    } else {
      trace := [ErrorMessage(InternalErrorMessage)];
      status := Exited(1);
    }
  }

  // ---------------------------------------------------------------- the pipeline

  /** How `run` ends: normally, with an error returned to its caller, or by exiting. */
  datatype RunOutcome = Finished | Failed(error: Error) | ExitedWith(code: int)

  /** The steps of `run` after the colours are set: input, indent, parse, print. */
  function Pipeline(args: Args, world: World, p: Processors): (seq<Event>, RunOutcome)
    requires InputWellFormed(args, world)
  {
    match GetContentAndExtension(args, world)
    case Err(e) => ([], Failed(e))
    case Ok(input) =>
      match GetIndent(args.indent)
      case Err(e) => ([], Failed(e))
      case Ok(indent) =>
        match GetParsedData(input.contents, input.extension, p)
        case Err(e) => ([], Failed(e))
        case Ok(data) =>
          var (trace, status) := TopLevelTrace(data, indent);
          (trace, if status.Exited? then ExitedWith(status.code) else Finished)
  }

  /** `run`: configure the colours, then acquire, validate, parse and print, stopping at the
      first error. */
  method Run(args: Args, noColorVar: EnvVar, world: World, p: Processors)
    returns (colors: bool, trace: seq<Event>, outcome: RunOutcome)
    requires InputWellFormed(args, world)
    ensures colors <==> !noColorVar.Present? && !args.noColor
    ensures (trace, outcome) == Pipeline(args, world, p)
  {
    colors := ColorsEnabled(noColorVar, args.noColor);
    trace := [];
    var input := GetContentAndExtension(args, world);
    if input.Err? {
      outcome := Failed(input.error);
      return;
    }
    var indent := GetIndent(args.indent);
    if indent.Err? {
      outcome := Failed(indent.error);
      return;
    }
    var data := GetParsedData(input.value.contents, input.value.extension, p);
    if data.Err? {
      outcome := Failed(data.error);
      return;
    }
    var status;
    trace, status := PrintParsedData(data.value, indent.value);
    outcome := if status.Exited? then ExitedWith(status.code) else Finished;
  }
}
