/** The process itself: the two globals of main.go, `config` and
    `extraNotes`, and the functions that update them step by step. `log`
    records the actions taken on the world (the template written, the git
    invocations, the POST) in order. Each method is proved against the
    functional model: loading against Load, the diff against GitDiff, the
    request and its answer against BuildCall and MessageFrom, and the whole
    of main against Run. */
module App {
  import opened Wrappers
  import opened Strings
  import opened Cli
  import opened Configuration
  import opened Completion
  import opened Pipeline
  import opened PipelineProperties

  class AiCommit {
    var config: Config
    var extraNotes: string
    var log: seq<Effect>

    /** The process at start-up: zero-valued globals, nothing done yet. */
    constructor()
      ensures config == ZeroConfig() && extraNotes == "" && log == []
    {
      config := ZeroConfig();
      extraNotes := "";
      log := [];
    }

    /** loadConfig. The file is decoded into the global, and the checks
        and fallbacks are applied to the global field by field. `doc` is
        the global as the decoding leaves it: json.Unmarshal overwrites
        the fields the file sets and keeps the others. The global ends as
        `doc` when it has no API key, as the defaulted `doc` when it loads,
        and is untouched when nothing was decoded. */
    method LoadConfig(file: ConfigFile) returns (result: LoadResult)
      modifies this
      ensures result == Load(file)
      ensures log == old(log) + LoadEffects(file)
      ensures config == (if file.Present? then (if file.doc.apiKey == "" then file.doc else WithDefaults(file.doc))
                         else old(config))
      ensures extraNotes == old(extraNotes)
    {
      match file {
        case NoHomeDir(reason) =>
          return Failed(reason);
        case Absent(createError) =>
          log := log + [WroteTemplate(FirstRunConfig())];
          if createError.Some? {
            return Failed(createError.value);
          }
          return FirstRun;
        case Unreadable(reason) =>
          return Failed(reason);
        case Malformed(reason) =>
          return Failed(reason);
        case Present(doc) =>
          config := doc;
          if config.apiKey == "" {
            return MissingApiKey;
          }
          if config.openAIEndpoint == "" {
            config := config.(openAIEndpoint := DefaultEndpoint);
          }
          if config.defaultLang == "" {
            config := config.(defaultLang := DefaultLang);
          }
          if config.model == "" {
            config := config.(model := DefaultModel);
          }
          if config.maxTokens <= 0 {
            config := config.(maxTokens := DefaultMaxTokens);
          }
          if config.temperature <= 0.0 {
            config := config.(temperature := DefaultTemperature);
          }
          return Ready(config);
      }
    }

    /** The overrides main applies after loading: a non-empty `--lang=`
        replaces the default language, and the notes are always taken. */
    method ApplyArgs(args: CmdArgs)
      modifies this
      ensures config == WithLang(old(config), args.lang)
      ensures extraNotes == args.notes
      ensures log == old(log)
    {
      if args.lang != "" {
        config := config.(defaultLang := args.lang);
      }
      extraNotes := args.notes;
    }

    /** runGitCommand: one git invocation and its answer. */
    method RunGit(git: GitCommand -> GitResult, cmd: GitCommand) returns (r: GitResult)
      modifies this
      ensures r == git(cmd)
      ensures log == old(log) + [RanGit(cmd)]
      ensures config == old(config) && extraNotes == old(extraNotes)
    {
      log := log + [RanGit(cmd)];
      r := git(cmd);
    }

    /** getGitDiff: the working-tree diff, then the staged diff. */
    method GetGitDiff(git: GitCommand -> GitResult) returns (r: DiffResult)
      modifies this
      ensures r == GitDiff(git)
      ensures log == old(log) + DiffEffects(git)
      ensures config == old(config) && extraNotes == old(extraNotes)
    {
      var working := RunGit(git, Diff);
      if working.GitError? {
        return DiffFailed(Diff, working.reason);
      }
      var staged := RunGit(git, DiffCached);
      if staged.GitError? {
        return DiffFailed(DiffCached, staged.reason);
      }
      return DiffOk(working.stdout + staged.stdout);
    }

    /** generateCommitMessage: build the request from the global
        configuration, post it, and read the reply. */
    method GenerateCommitMessage(diff: string, lang: string, notes: string, post: ApiCall -> HttpReply)
      returns (r: Result<string, string>)
      modifies this
      ensures r == MessageFrom(post(BuildCall(config, diff, lang, notes)))
      ensures log == old(log) + [Posted(BuildCall(config, diff, lang, notes))]
      ensures config == old(config) && extraNotes == old(extraNotes)
    {
      var body := ChatRequest(config.model, [Message("user", Prompt(lang, diff, notes))], config.maxTokens, config.temperature);
      var call := ApiCall(config.openAIEndpoint, config.apiKey, body);
      log := log + [Posted(call)];
      var reply := post(call);
      match reply {
        case NoResponse(reason) =>
          return Failure(reason);
        case UndecodableBody(reason) =>
          return Failure(reason);
        case Decoded(resp) =>
          if resp.error.Some? {
            return Failure(resp.error.value.message);
          }
          if |resp.choices| > 0 {
            var message := resp.choices[0].message.content;
            message := TrimPrefix(message, Quote);
            message := TrimSuffix(message, Quote);
            return Success(TrimSpace(message));
          }
          return Success("");
      }
    }

    /** main: runs the tool on `argv` and ends where Run ends, having taken
        exactly the actions of Run and left the globals as the run leaves
        them. `status` is the process exit status. main runs once, on the
        zero-valued globals of a fresh process, so a field the file leaves
        out is zero in `doc`. */
    method Execute(argv: seq<string>, env: Env) returns (end: Terminal, status: int)
      requires config == ZeroConfig() && extraNotes == ""
      modifies this
      ensures end == Run(argv, env).end && status == ExitStatus(end)
      ensures log == old(log) + Run(argv, env).effects
      ensures config == SettledConfig(argv, env.configFile, old(config))
      ensures extraNotes == SettledNotes(argv, env.configFile, old(extraNotes))
    {
      var args := ParseArgs(argv);
      assert args == Parsed(argv);
      if args.showHelp {
        HelpComesFirst(argv, env);
        return HelpShown, 0;
      }
      end, status := ContinueAtLoad(argv, env, args);
    }

    /** The rest of main once help is ruled out: loadConfig, the overrides,
        and on from the loaded configuration. */
    method ContinueAtLoad(argv: seq<string>, env: Env, args: CmdArgs) returns (end: Terminal, status: int)
      requires args == Parsed(argv) && !args.showHelp
      modifies this
      ensures end == Run(argv, env).end && status == ExitStatus(end)
      ensures log == old(log) + Run(argv, env).effects
      ensures config == SettledConfig(argv, env.configFile, old(config))
      ensures extraNotes == SettledNotes(argv, env.configFile, old(extraNotes))
    {
      var loaded := LoadConfig(env.configFile);
      if !loaded.Ready? {
        RunStopsInLoad(argv, env);
        assert log == old(log) + Run(argv, env).effects;
        match loaded {
          case FirstRun =>
            return FirstRunDone, 0;
          case Failed(reason) =>
            return ConfigFailed(reason), 1;
          case MissingApiKey =>
            return ApiKeyMissing, 1;
        }
      }
      assert LoadEffects(env.configFile) == [] && log == old(log);
      ApplyArgs(args);
      assert config == Effective(argv, env.configFile).value;
      RunFromConfig(argv, env);
      end, status := ContinueAtStaging(argv, env);
    }

    /** The rest of main once the configuration is in force: `git add .`
        and `git status`, then the diff. */
    method ContinueAtStaging(argv: seq<string>, env: Env) returns (end: Terminal, status: int)
      modifies this
      ensures var rest := Drive(ConfigReady(old(config), old(extraNotes)), argv, env);
              end == rest.end && status == ExitStatus(end) && log == old(log) + rest.effects
      ensures config == old(config) && extraNotes == old(extraNotes)
    {
      DriveStaging(config, extraNotes, argv, env);
      var added := RunGit(env.git, Add);
      if added.GitError? {
        return GitFailed(Add, added.reason), 1;
      }
      var checked := RunGit(env.git, Status);
      if checked.GitError? {
        return GitFailed(Status, checked.reason), 1;
      }
      assert log == old(log) + [RanGit(Add), RanGit(Status)];
      RecordSteps(old(log), [RanGit(Add), RanGit(Status)], Drive(Staged(config, extraNotes), argv, env).effects);
      end, status := ContinueAtDiff(argv, env);
    }

    /** The rest of main once the changes are staged: the diff, and no
        further when it is empty. */
    method ContinueAtDiff(argv: seq<string>, env: Env) returns (end: Terminal, status: int)
      modifies this
      ensures var rest := Drive(Staged(old(config), old(extraNotes)), argv, env);
              end == rest.end && status == ExitStatus(end) && log == old(log) + rest.effects
      ensures config == old(config) && extraNotes == old(extraNotes)
    {
      DriveDiffing(config, extraNotes, argv, env);
      var diff := GetGitDiff(env.git);
      if diff.DiffFailed? {
        return GitFailed(diff.cmd, diff.reason), 1;
      }
      if diff.diff == "" {
        return NoDifferences, 0;
      }
      RecordSteps(old(log), DiffEffects(env.git), Drive(DiffComputed(config, extraNotes, diff.diff), argv, env).effects);
      end, status := ContinueAtGenerate(argv, env, diff.diff);
    }

    /** The rest of main once there is a diff: the message, and no further
        when it is empty. */
    method ContinueAtGenerate(argv: seq<string>, env: Env, diff: string) returns (end: Terminal, status: int)
      modifies this
      ensures var rest := Drive(DiffComputed(old(config), old(extraNotes), diff), argv, env);
              end == rest.end && status == ExitStatus(end) && log == old(log) + rest.effects
      ensures config == old(config) && extraNotes == old(extraNotes)
    {
      DriveGenerating(config, extraNotes, diff, argv, env);
      var generated := GenerateCommitMessage(diff, config.defaultLang, extraNotes, env.post);
      if generated.Failure? {
        return GenerationFailed(generated.error), 1;
      }
      if generated.value == "" {
        return NoMessage, 1;
      }
      RecordSteps(old(log), [Posted(BuildCall(config, diff, config.defaultLang, extraNotes))],
                  Drive(MessageGenerated(generated.value), argv, env).effects);
      end, status := ContinueAtCommit(argv, env, generated.value);
    }

    /** The end of main: commitChanges with the generated message. */
    method ContinueAtCommit(argv: seq<string>, env: Env, message: string) returns (end: Terminal, status: int)
      modifies this
      ensures var rest := Drive(MessageGenerated(message), argv, env);
              end == rest.end && status == ExitStatus(end) && log == old(log) + rest.effects
      ensures config == old(config) && extraNotes == old(extraNotes)
    {
      DriveCommitting(message, argv, env);
      var committed := RunGit(env.git, Commit(message));
      if committed.GitError? {
        return GitFailed(Commit(message), committed.reason), 1;
      }
      return Committed(message), 0;
    }
  }

  /** Sequence concatenation is associative; stated on its own so that the
      methods above need not prove it in their heap context. */
  lemma RecordSteps(before: seq<Effect>, done: seq<Effect>, rest: seq<Effect>)
    ensures before + (done + rest) == (before + done) + rest
  {
  }
}
