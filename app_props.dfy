/** Properties of the front controller model: lower-casing of extensions, dispatch, the
    top-level print loop's last flag and order, and the order of the steps in `run`. */
module AppProperties {
  import opened Basics
  import opened Values
  import opened App

  // ---------------------------------------------------------------- lower-casing

  lemma {:induction false} ToLowerAt(s: string, i: nat)
    requires i < |s|
    ensures |ToLower(s)| == |s| && ToLower(s)[i] == LowerChar(s[i])
  {
    ToLowerLength(s);
    if i > 0 {
      ToLowerAt(s[1..], i - 1);
    }
  }

  lemma {:induction false} ToLowerLength(s: string)
    ensures |ToLower(s)| == |s|
  {
    if s != [] {
      ToLowerLength(s[1..]);
    }
  }

  /** Lower-casing leaves no ASCII capital behind. */
  lemma ToLowerHasNoCapitals(s: string)
    ensures forall i :: 0 <= i < |ToLower(s)| ==> !('A' <= ToLower(s)[i] <= 'Z')
  {
    ToLowerLength(s);
    forall i | 0 <= i < |ToLower(s)| ensures !('A' <= ToLower(s)[i] <= 'Z') {
      ToLowerAt(s, i);
    }
  }

  /** Lower-casing twice is lower-casing once. */
  lemma {:induction false} ToLowerIdempotent(s: string)
    ensures ToLower(ToLower(s)) == ToLower(s)
  {
    if s != [] {
      ToLowerIdempotent(s[1..]);
      assert ToLower(s)[1..] == ToLower(s[1..]);
    }
  }

  /** The extension a file read returns is already in lower case. */
  lemma FileExtensionIsLowerCase(path: string, files: map<string, FileEntry>)
    requires HasExtensionIfReadable(path, files)
    requires GetFileContent(path, files).Ok?
    ensures ToLower(GetFileContent(path, files).value.extension) == GetFileContent(path, files).value.extension
  {
    ToLowerIdempotent(files[path].extension.value);
  }

  /** An upper-case file extension selects the same processor as its lower-case spelling. */
  lemma UpperCaseFileExtensionIsSupported(contents: string, files: map<string, FileEntry>, p: Processors)
    requires files == map["config.YML" := FileEntry(Read(contents), Some("YML"))]
    ensures GetFileContent("config.YML", files) == Ok(Input(contents, "yml"))
    ensures GetParsedData(contents, "yml", p) == Lift(p.yaml(contents))
  {
    assert ToLower("YML") == "yml" by {
      assert ToLower("YML")[1..] == ToLower("ML");
      assert ToLower("ML")[1..] == ToLower("L");
    }
  }

  // ---------------------------------------------------------------- input source

  /** An empty path is the same as no path: both read stdin. */
  lemma EmptyPathMeansStdin(path: Option<string>, language: Option<string>, indent: Option<nat>,
                            noColor: bool, world: World)
    requires path == None || path == Some("")
    ensures GetContentAndExtension(Args(path, language, indent, noColor), world)
            == GetFromStdin(world.stdin, language)
  {
  }

  /** A failed stdin read is reported even when the language tag is also missing. */
  lemma StdinReadFailureReportedFirst(reason: string)
    ensures GetFromStdin(ReadFailed(reason), None) == Err(StdinReadFailed(reason))
  {
  }

  /** The stdin language tag is not lower-cased, so "JSON" on stdin is unsupported while a
      file named with extension "JSON" is parsed as JSON. */
  lemma StdinTagIsVerbatim(contents: string, p: Processors)
    ensures GetFromStdin(Read(contents), Some("JSON")) == Ok(Input(contents, "JSON"))
    ensures GetParsedData(contents, "JSON", p) == Err(UnsupportedFormat)
  {
    assert "JSON" !in FormatTable by {
      assert "JSON"[0] != "json"[0] && "JSON"[0] != "toml"[0] && "JSON"[0] != "yaml"[0] && "JSON"[0] != "yml"[0];
    }
  }

  // ---------------------------------------------------------------- dispatch

  /** "yaml" and "yml" are the same format. */
  lemma YamlAliases(contents: string, p: Processors)
    ensures GetParsedData(contents, "yaml", p) == GetParsedData(contents, "yml", p)
    ensures GetParsedData(contents, "yml", p) == Lift(p.yaml(contents))
  {
  }

  /** An unsupported tag yields the same error whatever the processors would do: none runs. */
  lemma UnsupportedRunsNoProcessor(contents: string, extension: string, p1: Processors, p2: Processors)
    requires extension !in FormatTable
    ensures GetParsedData(contents, extension, p1) == GetParsedData(contents, extension, p2) == Err(UnsupportedFormat)
  {
  }

  /** A supported tag's result depends only on the processor it selects. */
  lemma OnlySelectedProcessorMatters(contents: string, extension: string, p1: Processors, p2: Processors)
    requires extension in FormatTable
    requires Processor(p1, FormatTable[extension])(contents) == Processor(p2, FormatTable[extension])(contents)
    ensures GetParsedData(contents, extension, p1) == GetParsedData(contents, extension, p2)
  {
  }

  // ---------------------------------------------------------------- top-level printing

  /** The number of printer calls flagged last. */
  function CountLast(trace: seq<Event>): nat
  {
    if trace == [] then 0
    else (if trace[0].PrintObjectData? && trace[0].last then 1 else 0) + CountLast(trace[1..])
  }

  /** The keys handed to the printer, in call order. */
  function CalledKeys(trace: seq<Event>): seq<string>
  {
    if trace == [] then []
    else (if trace[0].PrintObjectData? then [trace[0].key] else []) + CalledKeys(trace[1..])
  }

  lemma {:induction false} CountLastAppend(a: seq<Event>, b: seq<Event>)
    ensures CountLast(a + b) == CountLast(a) + CountLast(b)
  {
    if a != [] {
      assert (a + b)[1..] == a[1..] + b;
      CountLastAppend(a[1..], b);
    } else {
      assert a + b == b;
    }
  }

  lemma {:induction false} CalledKeysAppend(a: seq<Event>, b: seq<Event>)
    ensures CalledKeys(a + b) == CalledKeys(a) + CalledKeys(b)
  {
    if a != [] {
      assert (a + b)[1..] == a[1..] + b;
      CalledKeysAppend(a[1..], b);
    } else {
      assert a + b == b;
    }
  }

  /** A non-empty object has exactly one entry flagged last; an empty one has none. */
  lemma {:induction false} EntryCallsCountLast(entries: seq<(string, Value)>, indent: nat)
    ensures CountLast(EntryCalls(entries, indent)) == if entries == [] then 0 else 1
  {
    if entries != [] {
      var calls := EntryCalls(entries, indent);
      assert calls[1..] == EntryCalls(entries[1..], indent);
      EntryCallsCountLast(entries[1..], indent);
    }
  }

  lemma {:induction false} EntryCallsKeys(entries: seq<(string, Value)>, indent: nat)
    ensures CalledKeys(EntryCalls(entries, indent)) == Keys(entries)
  {
    if entries != [] {
      var calls := EntryCalls(entries, indent);
      assert calls[1..] == EntryCalls(entries[1..], indent);
      EntryCallsKeys(entries[1..], indent);
    }
  }

  /** Printing an object: braces around one call per entry, in map order, each at depth
      `indent` with width `indent` and the top flag set, and `last` set on the final entry
      only. */
  lemma ObjectTrace(entries: seq<(string, Value)>, indent: nat)
    ensures var (trace, status) := TopLevelTrace(Object(entries), indent);
      && status == Returned
      && |trace| == |entries| + 2
      && trace[0] == Println("{") && trace[|trace| - 1] == Println("}")
      && (forall k :: 1 <= k <= |entries| ==>
            && trace[k].PrintObjectData?
            && trace[k].key == entries[k - 1].0 && trace[k].value == entries[k - 1].1
            && trace[k].depth == indent && trace[k].indent == indent && trace[k].top
            && (trace[k].last <==> k == |entries|))
  {
    var trace := TopLevelTrace(Object(entries), indent).0;
    forall k | 1 <= k <= |entries|
      ensures trace[k] == PrintObjectData(entries[k - 1].0, entries[k - 1].1, indent, indent, k == |entries|, true)
    {
      EntryCallsAt(entries, indent, k - 1);
    }
  }

  /** The whole top-level output of an object: exactly one last flag when it has entries, none
      when empty, and the keys in the object's own order. */
  lemma ObjectTraceCountsAndOrder(entries: seq<(string, Value)>, indent: nat)
    ensures CountLast(TopLevelTrace(Object(entries), indent).0) == if entries == [] then 0 else 1
    ensures CalledKeys(TopLevelTrace(Object(entries), indent).0) == Keys(entries)
  {
    var calls := EntryCalls(entries, indent);
    var open, close := [Println("{")], [Println("}")];
    assert TopLevelTrace(Object(entries), indent).0 == open + calls + close;
    CountLastAppend(open + calls, close);
    CountLastAppend(open, calls);
    CalledKeysAppend(open + calls, close);
    CalledKeysAppend(open, calls);
    EntryCallsCountLast(entries, indent);
    EntryCallsKeys(entries, indent);
  }

  /** The printer is called once per key and never twice for the same key. */
  lemma {:induction false} CalledKeysUnique(entries: seq<(string, Value)>, indent: nat)
    requires KeysUnique(entries)
    ensures var ks := CalledKeys(TopLevelTrace(Object(entries), indent).0);
      |ks| == |entries| && forall i, j :: 0 <= i < j < |ks| ==> ks[i] != ks[j]
  {
    ObjectTraceCountsAndOrder(entries, indent);
    KeysAt(entries);
  }

  lemma {:induction false} KeysAt(entries: seq<(string, Value)>)
    ensures forall i :: 0 <= i < |entries| ==> Keys(entries)[i] == entries[i].0
  {
    if entries != [] {
      KeysAt(entries[1..]);
    }
  }

  /** An empty object prints as the two braces and calls nothing. */
  lemma EmptyObjectTrace(indent: nat)
    ensures TopLevelTrace(Object([]), indent) == ([Println("{"), Println("}")], Returned)
  {
    assert [Println("{")] + EntryCalls([], indent) + [Println("}")] == [Println("{"), Println("}")];
  }

  /** A root that is not an object prints no brace and ends the process with status 1. */
  lemma NonObjectRootExits(data: Value, indent: nat)
    requires !data.Object?
    ensures TopLevelTrace(data, indent).1 == Exited(1)
    ensures forall e :: e in TopLevelTrace(data, indent).0 ==> e.ErrorMessage?
  {
  }

  // ---------------------------------------------------------------- step order in run

  /** An input error ends the run before the indent is looked at or anything is parsed. */
  lemma InputErrorComesFirst(args: Args, world: World, p: Processors)
    requires InputWellFormed(args, world)
    requires GetContentAndExtension(args, world).Err?
    ensures Pipeline(args, world, p) == ([], Failed(GetContentAndExtension(args, world).error))
  {
  }

  /** An indent above 10 is reported after the input is acquired and before any processor
      runs: the outcome does not depend on the processors, and nothing is printed. */
  lemma IndentErrorPreventsParsing(args: Args, world: World, p1: Processors, p2: Processors)
    requires InputWellFormed(args, world)
    requires GetContentAndExtension(args, world).Ok?
    requires args.indent.Some? && args.indent.value > 10
    ensures Pipeline(args, world, p1) == Pipeline(args, world, p2) == ([], Failed(IndentTooLarge))
  {
  }

  /** A run that fails with an error prints nothing. */
  lemma FailedRunPrintsNothing(args: Args, world: World, p: Processors)
    requires InputWellFormed(args, world)
    requires Pipeline(args, world, p).1.Failed?
    ensures Pipeline(args, world, p).0 == []
  {
  }

  /** A run that finishes has parsed an object and printed it between braces; a run that
      exits has parsed something that is not an object, with status 1. */
  lemma RunEndings(args: Args, world: World, p: Processors)
    requires InputWellFormed(args, world)
    ensures var (trace, outcome) := Pipeline(args, world, p);
      && (outcome.Finished? ==> |trace| >= 2 && trace[0] == Println("{") && trace[|trace| - 1] == Println("}"))
      && (outcome.ExitedWith? ==> outcome.code == 1 && trace == [ErrorMessage(InternalErrorMessage)])
  {
  }

  /** A file of a supported format whose content parses to an object prints that object with
      the validated indent. */
  lemma FileRunPrintsParsedObject(args: Args, world: World, p: Processors, entries: seq<(string, Value)>)
    requires args.path.Some? && args.path.value != "" && args.path.value in world.files
    requires world.files[args.path.value].content.Read?
    requires world.files[args.path.value].extension.Some?
    requires args.indent.None?
    requires var ext := ToLower(world.files[args.path.value].extension.value);
      ext in FormatTable
      && Processor(p, FormatTable[ext])(world.files[args.path.value].content.text) == Ok(Object(entries))
    ensures Pipeline(args, world, p) == (TopLevelTrace(Object(entries), 2).0, Finished)
  {
  }
}
