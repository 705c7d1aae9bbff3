# aicommit, modelled in Dafny

aicommit is a small command-line tool. It stages every change in a git
working tree, sends the combined working-tree and staged diff to an
OpenAI-compatible chat-completion endpoint, and commits with the message the
model returns. This project models the core of `main.go`:

- the argument parser (`--lang=`, `--notes=`, `--help`/`-h`, any other argument asks for help);
- the validation and defaulting step of `loadConfig`, on the global `config`;
- the `--lang=` override and the `--notes=` assignment in `main`;
- `getGitDiff`, the prompt of `generateCommitMessage`, and how the decoded reply becomes a message (the error object, the first choice, quote stripping, `strings.TrimSpace`);
- the control flow of `main` from start to every `os.Exit`.

Files and modules:

- `wrappers.dfy` (`Wrappers`): `Option` and `Result`.
- `strings.dfy` (`Strings`): the Go `strings` functions the tool uses. `TrimSpace` uses Go's exact `unicode.IsSpace` set.
- `cli.dfy` (`Cli`): `parseArgs`, as a method with a loop. It is proved against `Parsed`, an order-free description of each field.
- `config.dfy` (`Configuration`): the `Config` record, its defaults, `loadConfig` on an already decoded file (`Load`), and the language override.
- `completion.dfy` (`Completion`): the prompt, the request, reply interpretation and clean-up.
- `pipeline.dfy` (`Pipeline`): `main` as a state machine over the stages of a run (`Step`, `Drive`, `Run`). Git and the endpoint are functions from what is asked to what they answer. Every `os.Exit` is a terminal state with its exit status.
- `pipeline_props.dfy` (`PipelineProperties`): what every run guarantees. It is proved from one invariant of the machine (`Consistent`) and an ordering measure on actions.
- `app.dfy` (`App`): the process as a class `AiCommit`.
  - It holds the globals `config` and `extraNotes`, and a `log` of the actions taken on the world.
  - Its methods update them step by step the way `main.go` does.
  - Each method is proved equal to the functional model. `Execute` is proved equal to `Run`.

## Model

| member | source | states |
|---|---|---|
| Cli.ParseArgs | main.go:117-138 | the help flag is set iff some argument is `--help`, `-h` or neither a `--lang=` nor a `--notes=` argument; `lang` and `notes` are the values of the last `--lang=` / `--notes=` argument, "" when there is none |
| Cli.LastValueIsLast | main.go:124-135 | with no matching argument the value is ""; otherwise there is a last matching argument and the value is exactly what follows the flag in it |
| Cli.LastValueOfAppend | main.go:127-130 | a later occurrence of a flag overrides an earlier one; arguments without the flag do not disturb it |
| Cli.HelpOfAppend | main.go:125-134 | help, once requested, stays requested: appending arguments can add a help request but never remove one |
| Cli.UsageExamples | main.go:266-269 | the usage lines of the help text parse as intended (no arguments; `--lang=zh`; `--lang=zh --notes=紧急修复`), and an unknown argument asks for help |
| Strings.HasPrefix | main.go:127-129 | `s` has prefix `p` iff `p` is no longer than `s` and agrees with `s` at every position of `p` |
| Strings.IsSpaceIsWhiteSpace | main.go:366 | `IsSpace`, the Latin-1 switch of unicode.IsSpace plus its table lookup above U+00FF, holds exactly for the code points in the Unicode White_Space ranges |
| Strings.TrimPrefix | main.go:364 | one copy of the prefix is removed when present; otherwise the string is unchanged |
| Strings.TrimSuffix | main.go:365 | one copy of the suffix is removed when present; otherwise the string is unchanged |
| Strings.TrimSpace | main.go:366 | the result is a substring with only white space around it in the input, and neither starts nor ends with white space |
| Strings.TrimSpaceIgnoresPadding | main.go:366 | white space added on either side does not change the trimmed result |
| Strings.TrimSpaceFixpoint | main.go:366 | TrimSpace leaves a string unchanged iff the string has no white space at either end |
| Strings.TrimSpaceIdempotent | main.go:366 | trimming twice equals trimming once |
| Configuration.FirstRunConfig | main.go:160-168 | the first-run template is complete and has no API key and no proxy; it is exactly the zero record with every fallback applied |
| Configuration.WithDefaults | main.go:229-247 | afterwards every defaulted field is usable; a field that was already usable keeps its value; key and proxy are untouched |
| Configuration.DefaultsAreDocumented | main.go:229-247 | an unusable field gets exactly the documented default (endpoint, "en", "gpt-4o", 500, 0.7) |
| Configuration.WithDefaultsIdempotent | main.go:229-247 | defaulting a complete record changes nothing, so defaulting twice equals defaulting once |
| Configuration.KeyOnlyDocumentGetsTemplate | main.go:160-168 | the first-run template and the fallbacks agree: a document with only an API key loads as the template plus that key |
| Configuration.Load | main.go:194-250 | a configuration is produced iff a document was decoded and has an API key; such a configuration is complete, is the defaulted document, and keeps the key; an empty key is always the missing-key exit; a missing file is the first-run exit iff the template could be written |
| Configuration.WithLang | main.go:84-86 | a non-empty `--lang=` value becomes the default language and nothing else changes; an empty value changes nothing; completeness is preserved |
| Completion.Prompt | main.go:302 | the prompt is the fixed text with the language, the diff and the notes at known offsets, and has the matching length |
| Completion.PromptRoundTrip | main.go:302 | language, diff and notes can be read back out of the prompt, given the lengths of the first two |
| Completion.BuildCall | main.go:297-330 | the request goes to the configured endpoint with the configured key, model, token limit and temperature, and has one user message holding the prompt |
| Completion.StripQuotes | main.go:364-365 | at most one `"` goes from each end; a leading `"` always goes; a trailing `"` always goes when there is no leading one; a string with `"` at both ends (and length at least 2) loses exactly those two; a string with neither is unchanged |
| Completion.CleanCompletion | main.go:364-366 | the cleaned message is the quote-stripped content with only white space cut from its ends, never starts or ends with white space, and equals the quote-stripped content when that has no outer white space |
| Completion.CleanUnwrapsQuotes | main.go:364-366 | a message wrapped in one pair of quotes comes back without them and with the white space inside them trimmed; an unpadded message comes back unchanged |
| Completion.CleanTrimsPadding | main.go:364-366 | with white space outside the quotes, the quotes are kept and only the padding is trimmed |
| Completion.CleanQuotedExample | main.go:363-366 | `"Fix bug"` becomes `Fix bug` |
| Completion.CleanDoubleQuotedExample | main.go:363-366 | a doubled pair of quotes loses only its outer pair |
| Completion.CleanSpacedQuotesExample | main.go:363-366 | ` "Fix bug" ` becomes `"Fix bug"`: quotes behind white space survive |
| Completion.Interpret | main.go:355-369 | the result is a failure iff the reply has an error object, and then carries its message; a success has no outer white space; no choices and no error give "" |
| Completion.InterpretTakesFirstChoice | main.go:361-366 | without an error object and with choices, the message is the cleaned content of the first choice |
| Completion.InterpretReadsOnlyFirstContent | main.go:361-362 | two error-free replies that agree on the first choice's content, or both have no choices, give the same result whatever their other choices and roles |
| Completion.MessageFrom | main.go:333-352 | a transport or decoding problem is a failure with its reason; a decoded response is interpreted |
| Pipeline.GitDiff | main.go:286-293 | the diff succeeds iff both git calls succeed, and then is the working-tree diff followed by the staged diff; it is empty iff both are empty; a failure names the first command that failed |
| Pipeline.GitArgs | main.go:272-273 | every git invocation starts with its own subcommand: `add` exactly for `Add`, `status` for `Status`, `diff` for the two diffs (with one extra argument exactly for the staged one), `commit` for `Commit`; a commit passes its message verbatim as the last argument |
| Pipeline.GitArgsInjective | main.go:272-273 | different invocations pass different argument lists to git |
| Pipeline.ExitStatus | main.go:72-114 | every terminal state exits with 0 or 1, and with 1 exactly after a configuration error, a missing key, a git failure, a failed generation or an empty message (the os.Exit calls of main at main.go:74,80,99,106, of loadConfig at main.go:208,226, of runGitCommand at main.go:280, and of generateCommitMessage at main.go:313,325,336,344,351,357, all of which end as `GenerationFailed`) |
| Pipeline.AfterArgs | main.go:72-87 | after parsing, the run either stops or has a loaded configuration; help takes no action, and loading takes at most the template write |
| Pipeline.Staging | main.go:90-93 | after `add` and `status` the run either stops or is staged with the same configuration and notes; `status` runs only after a successful `add` |
| Pipeline.Diffing | main.go:96-100 | the diff step runs exactly the git diffs of getGitDiff, and either stops or carries a diff on |
| Pipeline.AfterPost | main.go:103-107 | after the POST the run either stops or has a message, and the POST is its only action |
| Pipeline.Committing | main.go:110 | the commit is the last action of a run |
| Pipeline.Step | main.go:69-115 | every step from a running stage moves strictly closer to stopping, so main terminates; a stopped run stays where it is; a step takes no more actions than its stage has left |
| Pipeline.Drive | main.go:69-115 | running the machine to its end from a stage takes at most the actions that stage has left |
| Pipeline.Run | main.go:69-115 | main takes at most six actions on the world |
| PipelineProperties.StepKeepsConsistent | main.go:69-115 | each step keeps the invariant that a stage holds exactly what main has computed by then, and takes only actions the environment justifies |
| PipelineProperties.RunJustified | main.go:69-115 | every run stops in a terminal state justified by what the arguments, the file, git and the endpoint answered, and takes only justified actions |
| PipelineProperties.HelpComesFirst | main.go:72-75 | the run stops at the help text iff help was requested; it then does nothing, not even load the configuration, and exits with 0 |
| PipelineProperties.NoPostWithoutKey | main.go:223-227 | every POST carries a non-empty key, endpoint and model and a positive token limit; a document with an empty key never posts and stops at the missing key unless help stopped it first |
| PipelineProperties.PostedCallIsBuilt | main.go:84-103 | a POST happens only after a successful load, add, status and a non-empty diff; it carries the prompt in the `--lang=` language if one was given and the configured language otherwise, with the notes |
| PipelineProperties.CommittedMessageIsGenerated | main.go:103-110 | a commit happens only with a non-empty message, and that message is what the reply to the run's request yields |
| PipelineProperties.EmptyDiffIsQuietSuccess | main.go:96-100 | the run stops at "no differences" iff both diffs succeed with empty output after a successful load, add and status; it then exits with 0 and posts nothing |
| PipelineProperties.EmptyMessageNeverCommits | main.go:104-107 | an empty message ends the run with status 1 and no commit, and only when the reply really yielded "" |
| PipelineProperties.SuccessfulRuns | main.go:69-115 | the run exits with 0 iff help was requested, the file was absent and the template written, both diffs were empty after a successful load, add and status, or the reply to the run's request yielded a non-empty message that git committed; a commit is of that message |
| PipelineProperties.GitFailureStops | main.go:278-281 | a git failure ends the run with status 1, naming a command git really failed on, with git's own error |
| PipelineProperties.StepInOrder | main.go:89-110 | the actions of one step are in pipeline order, and come before anything the next stage can do |
| PipelineProperties.DriveInOrder | main.go:89-110 | all actions of a run come in pipeline order, so each git step, the POST and the commit happen at most once and never before the steps they depend on |
| PipelineProperties.FirstRunWritesTemplate | main.go:202-209 | without a configuration file the run writes the template and exits with 0; the template has no key, so running on it unedited stops at the missing key |
| PipelineProperties.RunFromConfig | main.go:77-87 | without help and with a configuration, the run goes on from the overridden configuration having done nothing yet |
| PipelineProperties.RunStopsInLoad | main.go:78-81 | without a configuration, the run stops inside loadConfig with the matching terminal state and at most the template write |
| PipelineProperties.DriveStaging | main.go:90-93 | a failed `add` or `status` stops the run there (exit 1); otherwise it goes on staged |
| PipelineProperties.DriveDiffing | main.go:96-100 | a failed diff stops the run, an empty diff stops it quietly, a non-empty diff is carried on |
| PipelineProperties.DriveGenerating | main.go:103-107 | a failed generation or an empty message stops the run; otherwise it goes on to commit that message |
| PipelineProperties.DriveCommitting | main.go:110-114 | the commit either fails with git's error or ends the run committed |
| PipelineProperties.RunReachesPost | main.go:89-103 | a run that reaches the POST has run add, status, diff and diff --cached in that order and nothing else |
| PipelineProperties.CommitFollowsMessage | main.go:89-114 | a run that reaches the POST, gets a non-empty message and has git accept the commit ends committed with that message, after exactly add, status, diff, diff --cached, the POST and the commit |
| PipelineProperties.CommitsGeneratedMessage | main.go:103-114 | end to end: a valid configuration, a non-empty diff and a reply whose only choice is "Add retry logic", whatever its role, give a commit of exactly that message with status 0 |
| App.AiCommit.constructor | main.go:32-35 | the globals start zero-valued and nothing has been done |
| App.AiCommit.LoadConfig | main.go:194-250 | the result is Load of the file; the global becomes the document, or the defaulted document once it has a key, and is untouched when nothing was decoded; only the template write is logged |
| App.AiCommit.ApplyArgs | main.go:84-87 | the global configuration gets the language override, and the notes are taken from the arguments |
| App.AiCommit.RunGit | main.go:272-284 | returns git's answer to the command and logs the invocation |
| App.AiCommit.GetGitDiff | main.go:286-293 | returns GitDiff and logs exactly the git calls it made |
| App.AiCommit.GenerateCommitMessage | main.go:295-370 | posts BuildCall for the global configuration, logs the POST, and returns MessageFrom of the reply |
| App.AiCommit.Execute | main.go:69-115 | from the zero-valued globals, main ends where Run ends with its exit status, takes exactly Run's actions, and leaves the globals as the run leaves them |
| App.AiCommit.ContinueAtLoad | main.go:77-87 | from parsed arguments without help, the rest of main agrees with Run |
| App.AiCommit.ContinueAtStaging | main.go:89-93 | from a loaded configuration, the rest of main agrees with the machine |
| App.AiCommit.ContinueAtDiff | main.go:95-100 | from the staged state, the rest of main agrees with the machine |
| App.AiCommit.ContinueAtGenerate | main.go:102-107 | from a diff, the rest of main agrees with the machine |
| App.AiCommit.ContinueAtCommit | main.go:109-114 | from a message, the commit agrees with the machine |

## Left out

- All console output: printHelp, the progress and error messages, and git's stderr. Help is the terminal state `HelpShown`; the text printed is not modelled.
- The file system. getConfigFilePath, os.Stat, createDefaultConfig's MkdirAll and WriteFile, and os.ReadFile are abstracted as one `ConfigFile` value: no home directory, absent (with an optional write error), unreadable, malformed, or present. `WroteTemplate` records the attempt to write the template. It is logged for every absent file, including when the write failed.
- `Posted(call)` records the attempt to send the request. It is logged also when json.Marshal, http.NewRequest or the client fails, which the reply reports as `NoResponse`.
- git argument lists. Each invocation is a `GitCommand`; `GitArgs` gives its argument list, and `GitArgsInjective` shows that the command determines the list and back, so the log of commands is the log of git processes started.
- JSON decoding. json.Unmarshal is taken as already done: the file is either a decoded document or malformed. The model does not cover fields that a failing decode may already have written into the global. `Present(doc)` holds the global as json.Unmarshal leaves it, which merges the file into the global. `Execute` starts from the zero-valued globals of a fresh process, so there a field missing from the JSON is zero.
- The HTTP exchange. JSON encoding of the request, http.NewRequest, the headers, the 30-second client timeout and the response body read are abstracted. What comes back from them is an `HttpReply`: no response, an undecodable body, or a decoded response. The HTTP status code is not part of the model; main.go does not read it either.
- ProxyURL is decoded but never used by main.go, and the model only carries it.
- Numbers: `temperature` is a real number, not a float64. `maxTokens` is an unbounded integer, not Go's 64-bit int. main.go does no arithmetic on either, so rounding and overflow do not arise.
- Encoding: strings are sequences of Unicode scalar values, not UTF-8 bytes, so invalid UTF-8 handling in strings.TrimSpace is not modelled. TrimPrefix and TrimSuffix with `"` behave the same on bytes and on scalars.
- Process exit. os.Exit is a terminal state with an exit status (`ExitStatus`). Deferred closes and concurrency inside the HTTP client are not modelled.
