/**
 * The command-line entry point (src/index.ts): the flag decisions, the
 * existence check, the output path, the request sent for formatting and the
 * loop that writes the streamed fragments to the output file, waiting for
 * `'drain'` whenever a write reports a full buffer.
 *
 * The outside world is an input: how paths resolve, which paths exist, the env
 * files, the base64 content of the PDF, the analysis outcome and the chunks the
 * chat service delivers (followed, possibly, by a transport error).
 */
module Cli {
  import opened Js
  import OpenAILLM
  import Config

  // ---------------------------------------------------------------------------
  // The output path

  /** `filepath.replace('.pdf', '.md')`. */
  function OutputPath(filepath: string): string {
    ReplaceFirst(filepath, ".pdf", ".md")
  }

  /** Without `.pdf` anywhere in it, the output path is the input path itself. */
  lemma OutputPathWithoutPdf(filepath: string)
    requires forall j :: !OccursAt(filepath, ".pdf", j)
    ensures OutputPath(filepath) == filepath
  {
  }

  /** Only the first occurrence of `.pdf` is replaced, wherever it is. */
  lemma OutputPathReplacesFirst(filepath: string, i: nat)
    requires OccursAt(filepath, ".pdf", i)
    requires forall j :: 0 <= j < i ==> !OccursAt(filepath, ".pdf", j)
    ensures OutputPath(filepath) == filepath[..i] + ".md" + filepath[i + 4..]
  {
    var k := IndexOf(filepath, ".pdf", 0);
    assert k.Some? && k.value <= i;
  }

  /** A name whose only `.pdf` is its extension gets the extension `.md`. */
  lemma {:induction false} OutputPathOfPdfName(base: string)
    requires forall j :: !OccursAt(base, ".pdf", j)
    ensures OutputPath(base + ".pdf") == base + ".md"
  {
    var p := base + ".pdf";
    assert OccursAt(p, ".pdf", |base|) by { assert p[|base|..|base| + 4] == ".pdf"; }
    forall j | 0 <= j < |base|
      ensures !OccursAt(p, ".pdf", j)
    {
      if j + 4 <= |base| {
        assert p[j..j + 4] == base[j..j + 4];
        assert !OccursAt(base, ".pdf", j);
      } else {
        // a match would straddle the end of `base`, putting the '.' of the
        // extension at offset 1, 2 or 3 of the pattern, which holds no '.' there
        var d := |base| - j;
        assert p[j..j + 4][d] == p[|base|] == '.';
        assert ".pdf"[d] != '.';
      }
    }
    OutputPathReplacesFirst(p, |base|);
    assert p[..|base|] == base && p[|base| + 4..] == [];
  }

  /** The first `.pdf` need not be the extension: then a directory name is rewritten instead. */
  lemma FirstOccurrenceNotExtension()
    ensures OutputPath("a.pdf/b.pdf") == "a.md/b.pdf"
  {
    var p := "a.pdf/b.pdf";
    assert p[0..4][0] == 'a';
    assert p[1..5] == ".pdf" by { assert p[1] == '.' && p[2] == 'p' && p[3] == 'd' && p[4] == 'f'; }
    OutputPathReplacesFirst(p, 1);
    assert p[..1] == "a" && p[5..] == "/b.pdf";
  }

  /** With an upper-case extension nothing is replaced: the output would overwrite the input. */
  lemma UpperCaseExtensionKept()
    ensures OutputPath("a.PDF") == "a.PDF"
  {
    var p := "a.PDF";
    forall j
      ensures !OccursAt(p, ".pdf", j)
    {
      if j == 0 {
        assert p[j..j + 4][0] == 'a';
      } else if j == 1 {
        assert p[j..j + 4][1] == 'P';
      }
    }
    OutputPathWithoutPdf(p);
  }

  // ---------------------------------------------------------------------------
  // The formatting request

  /** `lines.join('\n')`. */
  function JoinLines(lines: seq<string>): string {
    if |lines| == 0 then ""
    else if |lines| == 1 then lines[0]
    else lines[0] + "\n" + JoinLines(lines[1..])
  }

  lemma {:induction false} JoinLinesAppend(xs: seq<string>, ys: seq<string>)
    requires xs != [] && ys != []
    ensures JoinLines(xs + ys) == JoinLines(xs) + "\n" + JoinLines(ys)
    decreases |xs|
  {
    assert (xs + ys)[0] == xs[0];
    if |xs| == 1 {
      assert (xs + ys)[1..] == ys;
    } else {
      assert (xs + ys)[1..] == xs[1..] + ys;
      JoinLinesAppend(xs[1..], ys);
    }
  }

  /**
   * The one system message `main` sends: the formatting instructions, then the
   * analysis result between `<text>` and `</text>` lines.
   */
  function FormattingMessages(instructions: seq<string>, analysis: string): seq<OpenAILLM.ChatMessage> {
    [OpenAILLM.ChatMessage(OpenAILLM.System, JoinLines(instructions + ["<text>", analysis, "</text>"]))]
  }

  lemma JoinThreeLines(a: string, b: string, c: string)
    ensures JoinLines([a, b, c]) == a + "\n" + b + "\n" + c
  {
    assert [b, c][1..] == [c];
    assert JoinLines([b, c]) == b + "\n" + c;
    assert [a, b, c][1..] == [b, c];
    assert JoinLines([a, b, c]) == a + "\n" + (b + "\n" + c);
  }

  /** The analysis, alone on the lines between `<text>` and `</text>`. */
  lemma TagLines(analysis: string)
    ensures JoinLines(["<text>", analysis, "</text>"]) == "<text>\n" + analysis + "\n</text>"
  {
    JoinThreeLines("<text>", analysis, "</text>");
    assert "<text>" + "\n" == "<text>\n" && "\n" + "</text>" == "\n</text>";
  }

  /** The analysis result reaches the chat request verbatim, after the instructions and enclosed in the tag lines. */
  lemma AnalysisEmbeddedVerbatim(instructions: seq<string>, analysis: string)
    requires instructions != []
    ensures FormattingMessages(instructions, analysis) ==
      [OpenAILLM.ChatMessage(OpenAILLM.System, JoinLines(instructions) + "\n<text>\n" + analysis + "\n</text>")]
  {
    var head := JoinLines(instructions);
    TagLines(analysis);
    JoinLinesAppend(instructions, ["<text>", analysis, "</text>"]);
    assert (head + "\n") + ("<text>\n" + analysis + "\n</text>") == (head + "\n") + ("<text>\n" + analysis) + "\n</text>";
    assert (head + "\n") + ("<text>\n" + analysis) == (head + "\n") + "<text>\n" + analysis;
    assert (head + "\n") + "<text>\n" == head + ("\n" + "<text>\n");
    assert "\n" + "<text>\n" == "\n<text>\n";
  }

  // ---------------------------------------------------------------------------
  // The output file

  /**
   * The high-water mark of the output stream: Node's default for a file write
   * stream before version 22 (64 KiB from version 22 on). No proof depends on its value.
   */
  const DEFAULT_HIGH_WATER_MARK: nat := 16384

  /** `xs.join('')`. */
  function Concat(xs: seq<string>): string {
    if xs == [] then "" else Concat(xs[..|xs| - 1]) + xs[|xs| - 1]
  }

  /** Every present value, empty ones included, concatenated. */
  function Joined(values: seq<Option<string>>): string {
    if values == [] then ""
    else
      var last := values[|values| - 1];
      Joined(values[..|values| - 1]) + (if last.Some? then last.value else "")
  }

  /** Skipping the falsy fragments loses no text: the written chunks spell all the fragments. */
  lemma {:induction false} SkippingLosesNothing(values: seq<Option<string>>)
    ensures Concat(Truthies(values)) == Joined(values)
    decreases |values|
  {
    if values != [] {
      var init, last := values[..|values| - 1], values[|values| - 1];
      SkippingLosesNothing(init);
      if Truthy(last) {
        assert Truthies(values) == Truthies(init) + [last.value];
        assert Truthies(values)[..|Truthies(values)| - 1] == Truthies(init);
      } else {
        assert Truthies(values) == Truthies(init);
        assert Joined(values) == Joined(init) + "";
      }
    }
  }

  /** The fragments "Hello", "" and " world" give two writes, spelling "Hello world". */
  lemma HelloWorld()
    ensures Truthies([Some("Hello"), Some(""), Some(" world")]) == ["Hello", " world"]
    ensures Concat(["Hello", " world"]) == "Hello world"
  {
    var values := [Some("Hello"), Some(""), Some(" world")];
    assert values[..2][..1] == [Some("Hello")] && values[..2] == values[..2][..1] + [Some("")];
    assert [Some("Hello")][..0] == [];
    assert Truthies(values[..2]) == ["Hello"];
    assert ["Hello", " world"][..1] == ["Hello"] && ["Hello"][..0] == [];
  }

  /**
   * The stream `createWriteStream` returns, reduced to what `main` relies on:
   * the chunks handed to `write`, the amount buffered against the high-water
   * mark, and whether a `'drain'` is pending. Flushing is observed only at drain.
   */
  class WriteStream {
    const path: string
    const highWaterMark: nat
    var chunks: seq<string>
    var buffered: nat
    var needDrain: bool
    var ended: bool
    /** Whether some `write` was issued while a drain was pending. */
    ghost var wroteWhileFull: bool

    /** The chunks `main` hands to `write`, concatenated. */
    function Content(): string
      reads this
    {
      Concat(chunks)
    }

    constructor (path: string, highWaterMark: nat)
      ensures this.path == path && this.highWaterMark == highWaterMark
      ensures chunks == [] && buffered == 0 && !needDrain && !ended && !wroteWhileFull
    {
      this.path := path;
      this.highWaterMark := highWaterMark;
      chunks, buffered, needDrain, ended := [], 0, false, false;
      wroteWhileFull := false;
    }

    /** `write(chunk)`: false once the buffered amount reaches the high-water mark. */
    method Write(chunk: string) returns (ok: bool)
      requires !ended
      modifies this
      ensures chunks == old(chunks) + [chunk]
      ensures buffered == old(buffered) + |chunk|
      ensures ok <==> buffered < highWaterMark
      ensures needDrain == (old(needDrain) || !ok)
      ensures wroteWhileFull == (old(wroteWhileFull) || old(needDrain))
      ensures ended == old(ended)
    {
      wroteWhileFull := wroteWhileFull || needDrain;
      chunks := chunks + [chunk];
      buffered := buffered + |chunk|;
      ok := buffered < highWaterMark;
      if !ok {
        needDrain := true;
      }
    }

    /** Resuming on `'drain'`: the buffer has been flushed. */
    method AwaitDrain()
      requires needDrain
      modifies this
      ensures buffered == 0 && !needDrain
      ensures chunks == old(chunks) && ended == old(ended) && wroteWhileFull == old(wroteWhileFull)
    {
      buffered, needDrain := 0, false;
    }

    /** `end()`. */
    method End()
      requires !ended
      modifies this
      ensures ended
      ensures chunks == old(chunks) && buffered == old(buffered) && needDrain == old(needDrain)
      ensures wroteWhileFull == old(wroteWhileFull)
    {
      ended := true;
    }
  }

  /**
   * The `for await` loop of `main`: skip falsy fragments, write the others in
   * order, and wait for `'drain'` after a write that returns false.
   */
  method Pump(out: WriteStream, values: seq<Option<string>>)
    requires !out.ended && !out.needDrain
    modifies out
    ensures out.chunks == old(out.chunks) + Truthies(values)
    ensures !out.ended && !out.needDrain
    ensures out.wroteWhileFull == old(out.wroteWhileFull)
  {
    for i := 0 to |values|
      invariant out.chunks == old(out.chunks) + Truthies(values[..i])
      invariant !out.ended && !out.needDrain
      invariant out.wroteWhileFull == old(out.wroteWhileFull)
    {
      assert values[..i + 1] == values[..i] + [values[i]];
      assert values[..i + 1][..i] == values[..i];
      var chunk := values[i];
      if !Truthy(chunk) {
        continue;
      }
      var ok := out.Write(chunk.value);
      if !ok {
        out.AwaitDrain();
      }
    }
    assert values[..|values|] == values;
  }

  // ---------------------------------------------------------------------------
  // main

  /** The parsed command line: `--version`/`-v`, `--help`/`-h` and the positionals. */
  datatype Args = Args(version: bool, help: bool, positionals: seq<string>)

  datatype Fatal = ConfigFailed(error: Config.ConfigError) | Raised(thrown: Thrown)

  datatype Outcome =
    | ShowedVersion
    | ShowedUsage
    | FileNotFound(path: string)
    | Converted(outputPath: string)
    | Crashed(error: Fatal)

  /** The process exit status: `process.exit(1)` for a missing file and from the top-level `catch`. */
  function ExitCode(o: Outcome): int {
    match o
    case FileNotFound(_) => 1
    case Crashed(_) => 1
    case _ => 0
  }

  /** Every failure, and only a failure, exits with 1. */
  lemma ExitCodeOfFailures(o: Outcome)
    ensures ExitCode(o) == 1 <==> o.FileNotFound? || o.Crashed?
    ensures ExitCode(o) == 0 <==> o.ShowedVersion? || o.ShowedUsage? || o.Converted?
  {
  }

  /** The steps of `main` that leave the process: loading the configuration and the two remote calls. */
  datatype Call =
    | LoadConfig
    | Analyze(endpoint: string, apiKey: string, base64Source: string)
    | StreamChat(baseUrl: string, apiKey: string, request: OpenAILLM.ChatRequest)

  datatype World = World(
    resolve: string -> string,
    existing: set<string>,
    envFiles: map<string, Config.EnvFile>,
    base64: Result<string, Thrown>,
    analysis: Result<string, Thrown>,
    chunks: seq<OpenAILLM.ChatCompletionChunk>,
    streamError: Option<Thrown>)

  /**
   * The end of `main`: the formatting is streamed into the freshly opened
   * output file, which is ended once the stream is exhausted. A chunk without
   * a choice, or a failure of the transport after the last chunk, is thrown
   * instead and leaves the file open.
   */
  method WriteFormatted(out: WriteStream, chunks: seq<OpenAILLM.ChatCompletionChunk>, streamError: Option<Thrown>)
    returns (o: Outcome)
    requires out.chunks == [] && !out.ended && !out.needDrain && !out.wroteWhileFull
    modifies out
    ensures out.chunks == Truthies(OpenAILLM.Chat(chunks).values)
    ensures out.Content() == Joined(OpenAILLM.Chat(chunks).values)
    ensures !out.wroteWhileFull
    ensures o.Converted? <==> OpenAILLM.Chat(chunks).error.None? && streamError.None?
    ensures out.ended <==> o.Converted?
    ensures o.Converted? ==> o.outputPath == out.path
    ensures !o.Converted? ==>
      var yielded := OpenAILLM.Chat(chunks);
      o == Crashed(Raised(if yielded.error.Some? then yielded.error.value else streamError.value))
  {
    var yielded := OpenAILLM.Chat(chunks);
    Pump(out, yielded.values);
    SkippingLosesNothing(yielded.values);
    if yielded.error.Some? {
      return Crashed(Raised(yielded.error.value));
    }
    if streamError.Some? {
      return Crashed(Raised(streamError.value));
    }
    out.End();
    o := Converted(out.path);
  }

  /**
   * What `main` has done once the configuration `config` is loaded, given the
   * remote calls it then started and the output stream it opened: the document
   * is analysed with the configured endpoint and key; the analysis is sent for
   * formatting, always with the default model; the chunks handed to `write` are
   * the truthy fragments in order, and the stream is ended exactly when it completes.
   */
  ghost predicate AnalyzedAndFormatted(config: Config.Config, filepath: string, instructions: seq<string>, world: World,
                                       o: Outcome, calls: seq<Call>, out: WriteStream?)
    reads out
  {
    var yielded := OpenAILLM.Chat(world.chunks);
    && (o.Crashed? || o.Converted?)
    && |calls| <= 2
    && (calls == [] <==> world.base64.Failure?)
    && (calls == [] ==> o == Crashed(Raised(world.base64.error)))
    && (calls != [] ==>
         && world.base64.Success?
         && calls[0] == Analyze(config.documentIntelligenceEndpoint, config.documentIntelligenceApiKey, world.base64.value))
    && (|calls| == 1 ==> world.analysis.Failure? && o == Crashed(Raised(world.analysis.error)))
    && (out != null <==> |calls| == 2)
    && (|calls| == 2 ==>
         && world.analysis.Success?
         && calls[1] == StreamChat(config.openAIApiBaseUrl, config.openAIApiKey,
              OpenAILLM.CompletionRequest(FormattingMessages(instructions, world.analysis.value), None))
         && calls[1].request.model == OpenAILLM.DEFAULT_CHAT_MODEL
         && out.path == OutputPath(filepath)
         && out.chunks == Truthies(yielded.values)
         && out.Content() == Joined(yielded.values)
         && !out.wroteWhileFull
         && (o.Converted? <==> yielded.error.None? && world.streamError.None?)
         && (out.ended <==> o.Converted?)
         && (!o.Converted? ==>
              o == Crashed(Raised(if yielded.error.Some? then yielded.error.value else world.streamError.value))))
    && (o.Converted? ==> out != null && o.outputPath == out.path)
  }

  /**
   * `main` once the configuration is loaded: read and analyse the document,
   * then format the analysis into the output file.
   */
  method AnalyzeAndFormat(config: Config.Config, filepath: string, instructions: seq<string>, world: World)
    returns (o: Outcome, calls: seq<Call>, out: WriteStream?)
    ensures out != null ==> fresh(out)
    ensures AnalyzedAndFormatted(config, filepath, instructions, world, o, calls, out)
  {
    calls, out := [], null;
    if world.base64.Failure? {
      return Crashed(Raised(world.base64.error)), calls, out;
    }
    calls := [Analyze(config.documentIntelligenceEndpoint, config.documentIntelligenceApiKey, world.base64.value)];
    if world.analysis.Failure? {
      return Crashed(Raised(world.analysis.error)), calls, out;
    }
    out := new WriteStream(OutputPath(filepath), DEFAULT_HIGH_WATER_MARK);
    var request := OpenAILLM.CompletionRequest(FormattingMessages(instructions, world.analysis.value), None);
    calls := calls + [StreamChat(config.openAIApiBaseUrl, config.openAIApiKey, request)];
    o := WriteFormatted(out, world.chunks, world.streamError);
  }

  /**
   * `main` from the point where the input file is known to exist: the
   * configuration is loaded first, updating the process environment, and a
   * failure to load it ends the run before any remote call.
   */
  method Convert(process: Config.Process, filepath: string, instructions: seq<string>, world: World)
    returns (o: Outcome, calls: seq<Call>, out: WriteStream?)
    modifies process
    ensures process.env == Config.EnvAfterLoad(old(process.env), world.envFiles)
    ensures calls != [] && calls[0] == LoadConfig
    ensures out != null ==> fresh(out)
    ensures
      var config := Config.ConfigFrom(old(process.env), world.envFiles);
      if config.Failure? then calls == [LoadConfig] && out == null && o == Crashed(ConfigFailed(config.error))
      else AnalyzedAndFormatted(config.value, filepath, instructions, world, o, calls[1..], out)
  {
    calls, out := [LoadConfig], null;
    var config := process.LoadConfig(world.envFiles);
    if config.Failure? {
      return Crashed(ConfigFailed(config.error)), calls, out;
    }
    var more;
    o, more, out := AnalyzeAndFormat(config.value, filepath, instructions, world);
    calls := calls + more;
    assert calls[1..] == more;
  }

  /** `main` followed by its `catch`; the formatting instructions are a parameter. */
  method Run(process: Config.Process, args: Args, instructions: seq<string>, world: World)
    returns (o: Outcome, calls: seq<Call>, out: WriteStream?)
    modifies process
    // the flags: version wins over help; usage when help is asked or no path is given
    ensures o.ShowedVersion? <==> args.version
    ensures o.ShowedUsage? <==> !args.version && (args.positionals == [] || args.help)
    // a path that does not exist stops the run before anything else happens
    ensures o.FileNotFound? <==>
      !args.version && !args.help && args.positionals != [] && world.resolve(args.positionals[0]) !in world.existing
    ensures o.FileNotFound? ==> o.path == world.resolve(args.positionals[0])
    ensures calls == [] <==> o.ShowedVersion? || o.ShowedUsage? || o.FileNotFound?
    ensures calls == [] ==> out == null && process.env == old(process.env)
    // otherwise the conversion runs on the resolved path
    ensures calls != [] ==>
      && !args.version && !args.help && args.positionals != []
      && world.resolve(args.positionals[0]) in world.existing
      && calls[0] == LoadConfig
      && process.env == Config.EnvAfterLoad(old(process.env), world.envFiles)
    ensures calls != [] ==>
      var config := Config.ConfigFrom(old(process.env), world.envFiles);
      if config.Failure? then calls == [LoadConfig] && out == null && o == Crashed(ConfigFailed(config.error))
      else AnalyzedAndFormatted(config.value, world.resolve(args.positionals[0]), instructions, world, o, calls[1..], out)
    ensures out != null ==> fresh(out)
  {
    calls, out := [], null;
    if args.version {
      return ShowedVersion, calls, out;
    }
    if |args.positionals| == 0 || args.help {
      return ShowedUsage, calls, out;
    }
    var filepath := world.resolve(args.positionals[0]);
    if filepath !in world.existing {
      return FileNotFound(filepath), calls, out;
    }
    o, calls, out := Convert(process, filepath, instructions, world);
  }
}
