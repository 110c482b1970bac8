# pdf2md in Dafny

`pdf2md` is a command-line tool that turns a PDF into Markdown in three steps:

1. A document-analysis service extracts the text.
2. A chat-completion model reformats that text.
3. The streamed reply is written, fragment by fragment, to a `.md` file next to the input.

This project models the tool's orchestration and configuration.

**Modules.**

- `Js` (`js.dfy`) holds the JavaScript built-ins the code relies on:
  - truthiness of a `string | undefined`;
  - `filter(Boolean)`;
  - `Array.prototype.includes`;
  - `String.prototype.indexOf` from a start position within the string, and `replace` with a string pattern;
  - `typeof obj[key]` on a plain object, which sees the members inherited from `Object.prototype`;
  - thrown values, described by whether they are `Error` instances and whether they carry `code` and `syscall`.
- `OpenAILLM` (`openai_llm.dfy`) models the chat adapter:
  - the allow-list of 41 chat models and the exact-membership test on it;
  - the streaming request `chat` issues, whose model defaults to `o3-mini`;
  - the values its generator yields for a delivered chunk stream, including the `TypeError` raised by a chunk with no choice.
- `Config` (`config.dfy`) models the configuration loader.
  - **`loadEnv`:**
    - picks a mode from `NODE_ENV`;
    - builds the layered env-file list;
    - merges the parsed files into `parsedEnv`;
    - swallows missing files and errors that are not system errors;
    - aborts on the first other system error;
    - finally lays the merged entries under the process environment, in place.
  - **`loadConfig`:** validates the four required settings in order, then the chat model.
  - **State and loops.** The process environment is the field of class `Config.Process`. The two loops of `loadEnv` are methods (`AbsorbFile`, `MergeEnvFiles`). Each method is proved equal to a specification function (`Absorb`, `MergeFrom`). The lemmas characterise what the loaded environment holds and when loading fails.
- `Cli` (`index.ts`'s `main`, in `index.dfy`) models the command line:
  - the flag decisions;
  - the existence check;
  - the output path;
  - the system message that embeds the analysis;
  - a Node write stream, as class `Cli.WriteStream`, with its high-water mark and pending-drain flag;
  - the write loop that skips falsy fragments and waits for `'drain'`;
  - the exit status.

The outside world is an input of `Cli.Run`: path resolution, the set of existing paths, the env files, the base64 content, the analysis result, the delivered chunks and a trailing transport error. `Run` returns three things:

- the outcome;
- the ordered list of calls it started (configuration load, analysis, chat stream);
- the output stream it opened.

**Behaviours of the code that are easy to misread; the model follows the code:**

- The output path replaces the *first* `.pdf` in the resolved path, wherever it occurs, not only a trailing extension. A path without a lower-case `.pdf` (e.g. `report.PDF`) keeps its name, so the output would overwrite the input.
- `main` calls `chat` without a model, so the request always names `o3-mini`. The validated `OPENAI_CHAT_MODEL` setting is checked but never used.
- Only system errors other than `ENOENT` abort `loadEnv`. A thrown value lacking `code` or `syscall` is swallowed.
- The "regular file" guard tests the `isFile` method object, which is always truthy. So it never skips: a directory named like an env file is read and fails with `EISDIR`.
- `typeof parsedEnv[key] === 'undefined'` is false for `Object.prototype` member names such as `toString`. Such keys are never taken from an env file.

## Model

| member | source | states |
|---|---|---|
| Js.Truthy | src/config.ts:37-56 | JavaScript truthiness of an optional string: present and non-empty; used for the `!X` tests, the `OPENAI_CHAT_MODEL` default and the `!chunk` test at src/index.ts:86 |
| Js.Truthies | src/config.ts:84-90 | `filter(Boolean)` keeps only non-empty strings that were present, and never lengthens the list |
| Js.TruthiesAppend | src/config.ts:84-90 | filtering distributes over concatenation |
| Js.TruthiesMembership | src/config.ts:84-90 | a string survives the filter iff it is non-empty and present |
| Js.Includes | src/openai-llm.ts:96-98 | `includes` is true iff some element is strictly equal to the argument |
| Js.ReplaceFirst | src/index.ts:66 | `replace` with a string pattern: the text up to the first occurrence, the replacement, then the rest; unchanged without an occurrence (characterised by the `Cli.OutputPath…` lemmas) |
| Js.Get | src/config.ts:36-56 | a property read `env.X` on a string record: the own value, or `undefined` when absent (also `process.env.NODE_ENV` at line 78) |
| Js.Defined | src/config.ts:107 | `typeof obj[key] !== 'undefined'` on a plain string record: an own key or a member inherited from `Object.prototype` |
| Js.IndexOf | src/index.ts:66 | `indexOf` finds the first occurrence at or after the start index, and reports none only when there is none |
| OpenAILLM.IsChatModel | src/openai-llm.ts:96-98 | `isOpenAIChatModel`: `includes` on the allow-list (no contract of its own; `IsChatModelMembership` characterises it) |
| OpenAILLM.IsChatModelMembership | src/openai-llm.ts:96-98 | a model is accepted iff it equals some entry of the allow-list, i.e. iff it is a member of the list |
| OpenAILLM.AllowListSize | src/openai-llm.ts:52-94 | the allow-list has 41 entries |
| OpenAILLM.DefaultModelIsListed | src/openai-llm.ts:39 | the default `o3-mini` is itself on the allow-list |
| OpenAILLM.EmptyModelRejected | src/openai-llm.ts:96-98 | the empty string is rejected |
| OpenAILLM.CaseVariantRejected | src/openai-llm.ts:96-98 | comparison is case-sensitive: `GPT-4o` is rejected although `gpt-4o` is listed |
| OpenAILLM.UnknownModelRejected | src/openai-llm.ts:96-98 | `not-a-real-model` is rejected |
| OpenAILLM.ListedPrefixAccepted | src/openai-llm.ts:52-94 | a listed id that prefixes another listed id (`o1`, `o1-mini`) is accepted |
| OpenAILLM.CompletionRequest | src/openai-llm.ts:39-44 | the request streams exactly the given messages; its model is the one passed, else `o3-mini`, which is on the list |
| OpenAILLM.Chat | src/openai-llm.ts:46-48 | one value per chunk, in order, equal to `choices[0].delta.content`; it throws exactly when some chunk has no choice, stopping at the first such chunk |
| Config.ModeOf | src/config.ts:77-82 | the mode is `production` or `test` when `NODE_ENV` is exactly that string, otherwise `development` |
| Config.EnvFileCandidates | src/config.ts:84-89 | the four candidate names before filtering, with `false` in place of `.env.local` in test mode |
| Config.EnvFiles | src/config.ts:84-90 | the candidates after `filter(Boolean)` (characterised by `EnvFilesShape`) |
| Config.EnvFilesShape | src/config.ts:84-90 | four layers, mode-local then `.env.local` then mode then `.env`, with `.env.local` dropped exactly in test mode |
| Config.ProductionEnvFiles | src/config.ts:84-90 | the production file list, literally |
| Config.TestEnvFiles | src/config.ts:84-90 | the test file list, literally, without `.env.local` |
| Config.DevelopmentEnvFiles | src/config.ts:84-90 | the development file list, literally |
| Config.EnvFilesForNodeEnv | src/config.ts:77-90 | `NODE_ENV` `production` or `test` selects that mode's files; any other value, or none, selects development |
| Config.Message | src/config.ts:38-113 | each error message names the offending path (line 113), variable (lines 38-53) or model value (line 59) |
| Config.ReadEnvFile | src/config.ts:96-104 | a missing file throws `ENOENT`; otherwise a throwing `statSync` or `readFileSync` throws its error, and a read file yields its parsed entries; the entry kind is not consulted |
| Config.IsSystemError | src/config.ts:164-166 | an `Error` instance carrying both `code` and `syscall` |
| Config.Aborts | src/config.ts:111-114 | the `catch` rethrows exactly for a system error whose code is not `ENOENT` |
| Config.Absorb | src/config.ts:106-110 | the key loop as a map update: keys of the parsed file undefined on both `parsedEnv` and the process environment are added (characterised by `AbsorbFile` and `MergedEntry`) |
| Config.Step | src/config.ts:93-116 | one iteration of the file loop: absorb a parsed file, abort on an aborting error, otherwise skip |
| Config.MergeFrom | src/config.ts:93-116 | the file loop as a fold over the file list that stops at the first abort (characterised by `MergeFailsOnFirstAbort`, `MergedEntry`, `MergeEnvFiles`) |
| Config.MergeFailsOnFirstAbort | src/config.ts:93-116 | merging fails iff some file's read throws a non-`ENOENT` system error, and the error names the first such file |
| Config.MergedEntry | src/config.ts:106-110 | a key enters the merge iff it is undefined in the process environment and inherited members, and some file defines it; it takes the first defining file's value |
| Config.EarlierFileWins | src/config.ts:106-110 | the value of the earliest file defining a key wins over later files |
| Config.AbsorbFile | src/config.ts:106-110 | the key loop adds exactly the keys undefined on both `parsedEnv` and the process environment, keeping existing entries |
| Config.MergeEnvFiles | src/config.ts:93-116 | the file loop computes the merge, stopping with an error at the first aborting file |
| Config.LoadedEnv | src/config.ts:76-119 | `Object.assign(process.env, parsedEnv)` after the merge: the merged entries laid under the process environment, or the merge's error (characterised by `LoadedEnvEntry`, `LoadedEnvFailure`) |
| Config.LoadedEnvEntry | src/config.ts:76-119 | the loaded environment holds a key iff the process holds it or a file supplies it; the process value takes precedence |
| Config.ProcessEnvWins | src/config.ts:107 | a variable already in the process environment is never overwritten by a file |
| Config.LoadedEnvFailure | src/config.ts:111-114 | `loadEnv` fails iff some file aborts, with the error naming the first one |
| Config.MissingFileSkipped | src/config.ts:111-114 | a file that does not exist leaves the merge unchanged |
| Config.NonSystemErrorSkipped | src/config.ts:111-114 | a thrown value lacking `code` or `syscall` is swallowed |
| Config.StatKindIgnored | src/config.ts:98-101 | for every file, environment and merge state: whatever `statSync` reports about the entry kind, one loop iteration has the same result, so the `isFile` guard never skips |
| Config.DirectoryIsNotSkipped | src/config.ts:98-104 | a corollary: a directory is read anyway, and its `EISDIR` failure aborts naming the file |
| Config.ChatModelSetting | src/config.ts:56 | the `OPENAI_CHAT_MODEL` setting when it is non-empty, else the default `o3-mini` (see `DefaultChatModelApplies`) |
| Config.ValidateConfig | src/config.ts:36-70 | every failure is a missing variable or an unsupported model; a missing-variable error names one of the four required variables; an unsupported model error names the model setting, which is not listed; a validated model is the setting and is listed |
| Config.ValidateConfigSucceeds | src/config.ts:36-61 | validation succeeds iff the four required variables are non-empty and the model setting is listed |
| Config.ValidatedFields | src/config.ts:63-70 | a validated configuration holds exactly the environment's values, all non-empty |
| Config.FirstMissingVariableNamed | src/config.ts:36-54 | the error names a required variable iff it is unset or empty and every variable checked before it is set |
| Config.DefaultChatModelApplies | src/config.ts:56 | an unset or empty model setting yields `o3-mini` |
| Config.MissingEndpointNamed | src/config.ts:36-39 | a missing endpoint fails first, naming the variable |
| Config.UnknownModelNamed | src/config.ts:56-61 | with the four required variables set, any model setting not on the allow-list fails with an error naming that setting |
| Config.ConfigFrom | src/config.ts:33-71 | `loadConfig` as a whole: the `loadEnv` error, or the validation of the loaded environment; the function in which `Process.LoadConfig`, `Convert` and `Run` state their contracts |
| Config.EnvAfterLoad | src/config.ts:118 | `process.env` after `loadEnv`: the loaded environment on success, unchanged on failure |
| Config.Process.LoadEnv | src/config.ts:76-119 | the result is the loaded environment, which becomes the process environment; a failure leaves it unchanged |
| Config.Process.LoadConfig | src/config.ts:33-71 | the result is the validation of the loaded environment |
| Cli.OutputPath | src/index.ts:66 | `filepath.replace('.pdf', '.md')` (characterised by the lemmas below) |
| Cli.OutputPathWithoutPdf | src/index.ts:66 | a path without `.pdf` maps to itself |
| Cli.OutputPathReplacesFirst | src/index.ts:66 | the first `.pdf` is replaced by `.md` and the rest is kept |
| Cli.OutputPathOfPdfName | src/index.ts:66 | a name whose only `.pdf` is its extension gets the extension `.md` |
| Cli.FirstOccurrenceNotExtension | src/index.ts:66 | `a.pdf/b.pdf` maps to `a.md/b.pdf` |
| Cli.UpperCaseExtensionKept | src/index.ts:66 | `a.PDF` maps to itself |
| Cli.JoinLines | src/index.ts:73-83 | `join('\n')`: the lines separated by single newlines, empty for no lines |
| Cli.FormattingMessages | src/index.ts:70-85 | the messages `main` passes to `chat`: one system message, the instruction lines then `<text>`, the analysis and `</text>`, joined by newlines (see `AnalysisEmbeddedVerbatim`) |
| Cli.JoinLinesAppend | src/index.ts:73-83 | `join('\n')` of two non-empty line lists is the two joins separated by a newline |
| Cli.TagLines | src/index.ts:80-83 | the analysis sits alone between a `<text>` line and a `</text>` line |
| Cli.AnalysisEmbeddedVerbatim | src/index.ts:70-85 | one system message: the instructions, then the analysis verbatim between `<text>` and `</text>` lines |
| Cli.SkippingLosesNothing | src/index.ts:86-92 | skipping falsy fragments loses no text: the written chunks concatenate to all fragments |
| Cli.HelloWorld | src/index.ts:86-92 | fragments `Hello`, empty, ` world` give two writes spelling `Hello world` |
| Cli.WriteStream.constructor | src/index.ts:67 | a new stream is empty and not ended, with nothing pending |
| Cli.WriteStream.Write | src/index.ts:90 | the chunk is appended; the result is false once the buffered length reaches the high-water mark, and a drain is then pending |
| Cli.WriteStream.AwaitDrain | src/index.ts:91 | after `'drain'` the buffer is empty and no drain is pending |
| Cli.WriteStream.End | src/index.ts:95 | the stream is ended, content unchanged |
| Cli.Pump | src/index.ts:70-93 | exactly the truthy fragments are written, in order, and no write is issued while a drain is pending |
| Cli.ExitCode | src/index.ts:100-103 | the process status: 1 for `process.exit(1)` on a missing file or in the `catch` of `main()`, else 0 (see `ExitCodeOfFailures`) |
| Cli.ExitCodeOfFailures | src/index.ts:100-103 | the status is 1 exactly for a missing file or a thrown error, else 0 |
| Cli.WriteFormatted | src/index.ts:70-95 | the chunks `main` hands to `write` are the truthy fragments yielded before any failure; it is ended iff the stream completes, else the failure is reported |
| Cli.AnalyzeAndFormat | src/index.ts:51-97 | with a loaded configuration: analysis with the configured endpoint and key, then the chat request with the embedded analysis and model `o3-mini`, then the file write; each failure stops the run there |
| Cli.Convert | src/index.ts:49-97 | configuration is loaded first and updates the process environment; its failure ends the run before any remote call, otherwise the run continues as `AnalyzeAndFormat` states |
| Cli.Run | src/index.ts:25-103 | version wins over help; usage when no path is given or help is asked; a missing path stops before any call and leaves the environment alone; otherwise the conversion runs on the resolved path, with the outcome `Convert` states |

## Left out

- The document-analysis client (src/azure-document-intelligence-client.ts) is not part of this model. Its result and errors are inputs of `Cli.Run`.
- The OpenAI SDK's HTTP transport is not modelled. The delivered chunks and a trailing transport error are inputs.
- The argument parser and `format` helper (src/helper.ts) are not part of this model. Parsed arguments are the input `Cli.Args`.
- Build configuration (tsup.config.ts) is not modelled; it has no run-time behaviour.
- Console output is left out as presentation: the version and usage texts, chalk colours, wrap-ansi wrapping and progress messages.
- The wording of the formatting instructions is left out as presentation. It is the `instructions` parameter.
- `path.resolve`, `existsSync`, `readFileSync` and `statSync` are inputs rather than operations on a file system.
- `relative(process.cwd(), filepath)` is taken to be the bare env-file name, since the file is joined to the working directory.
- `dotenv.parse` is not modelled. Each env file's parsed entries are an input.
- `process.env` is modelled with case-sensitive keys, as on POSIX systems. On Windows its lookups ignore case (src/config.ts:36-56, 107 and 118), so a file entry `Path` would be skipped there when the process has `PATH`; the model does not capture this.
- Node's `process.env` coerces assigned values to strings. All values are already strings here, so this is not modelled.
- Cli.WriteStream.Write: counts buffered length in characters, not UTF-8 bytes. It does not model flushing to disk between drains, asynchronous open or write errors of `createWriteStream`, or the timing of `'drain'`.
- Cli.WriteFormatted: after a failure, `process.exit(1)` does not wait for pending writes, so only a prefix of the chunks handed to `write` may reach the file.
- Js.IndexOf: a start position beyond the length, which JavaScript clamps to the length, is excluded by its precondition; the only caller starts at 0.
- Cli.Run: a run abandoned by `process.exit(1)` leaves the output file open. The model reports the stream as not ended, without modelling process teardown.
- Concurrency and event-loop scheduling are not modelled. `main` is sequential, and the awaits are modelled as steps.
