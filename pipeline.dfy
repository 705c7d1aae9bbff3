/** The run of the tool as main drives it: parse the arguments, load the
    configuration, apply the overrides, stage, diff, ask the endpoint for a
    message, commit. Git and the HTTP endpoint are given as functions from
    what is asked of them to what they answer; every os.Exit of the source
    is a terminal state with its exit status. */
module Pipeline {
  import opened Wrappers
  import opened Cli
  import opened Configuration
  import opened Completion

  /** The git invocations the tool makes. */
  datatype GitCommand = Add | Status | Diff | DiffCached | Commit(message: string)

  /** The argument list each invocation passes to git. Every list starts
      with the git subcommand. */
  function GitArgs(cmd: GitCommand): (r: seq<string>)
    ensures |r| >= 1 && r[0] in {"add", "status", "diff", "commit"}
    ensures r[0] == "add" <==> cmd.Add?
    ensures r[0] == "status" <==> cmd.Status?
    ensures r[0] == "diff" <==> cmd.Diff? || cmd.DiffCached?
    ensures r[0] == "commit" <==> cmd.Commit?
    ensures cmd.DiffCached? <==> r[0] == "diff" && |r| == 2
    ensures cmd.Commit? ==> r[|r| - 1] == cmd.message
  {
    match cmd
    case Add => ["add", "."]
    case Status => ["status"]
    case Diff => ["diff"]
    case DiffCached => ["diff", "--cached"]
    case Commit(message) => ["commit", "-m", message]
  }

  /** Different invocations pass different argument lists, so a log of
      commands says exactly which git processes were started. */
  lemma GitArgsInjective(a: GitCommand, b: GitCommand)
    ensures GitArgs(a) == GitArgs(b) ==> a == b
  {
    if GitArgs(a) == GitArgs(b) {
      assert GitArgs(a)[0] == GitArgs(b)[0];
      assert |GitArgs(a)| == |GitArgs(b)|;
      if a.Commit? {
        assert GitArgs(a)[2] == GitArgs(b)[2];
      }
    }
  }

  /** What runGitCommand sees: the standard output of a successful run, or
      the error of a failed one. */
  datatype GitResult = GitOk(stdout: string) | GitError(reason: string)

  /** Everything outside the process that a run depends on. */
  datatype Env = Env(configFile: ConfigFile, git: GitCommand -> GitResult, post: ApiCall -> HttpReply)

  /** The actions a run takes on the world, in the order it takes them.
      `Posted(call)` records the attempt to send `call`: it is logged even
      when the request could not be built or sent, which the reply then
      reports as `NoResponse`. */
  datatype Effect = WroteTemplate(template: Config) | RanGit(cmd: GitCommand) | Posted(call: ApiCall)

  /** Where a run stops. */
  datatype Terminal =
    | HelpShown
    | FirstRunDone
    | ConfigFailed(reason: string)
    | ApiKeyMissing
    | GitFailed(cmd: GitCommand, reason: string)
    | NoDifferences
    | GenerationFailed(reason: string)
    | NoMessage
    | Committed(message: string)

  /** The process exit status of each terminal state: 0 after help, the
      first-run template, an empty diff and a commit; 1 otherwise. */
  function ExitStatus(t: Terminal): (r: int)
    ensures r == 0 || r == 1
    ensures r == 1 <==> t.ConfigFailed? || t.ApiKeyMissing? || t.GitFailed? || t.GenerationFailed? || t.NoMessage?
  {
    if t.HelpShown? || t.FirstRunDone? || t.NoDifferences? || t.Committed? then 0 else 1
  }

  datatype Outcome = Outcome(end: Terminal, effects: seq<Effect>)

  /** The first-run branch of loadConfig tries to write the template. */
  function LoadEffects(file: ConfigFile): seq<Effect> {
    if file.Absent? then [WroteTemplate(FirstRunConfig())] else []
  }

  /** getGitDiff: the working-tree diff followed by the staged diff; the
      first git failure ends it. */
  datatype DiffResult = DiffOk(diff: string) | DiffFailed(cmd: GitCommand, reason: string)

  function GitDiff(git: GitCommand -> GitResult): (r: DiffResult)
    ensures r.DiffOk? <==> git(Diff).GitOk? && git(DiffCached).GitOk?
    ensures r.DiffOk? ==> r.diff == git(Diff).stdout + git(DiffCached).stdout
    ensures r.DiffOk? ==> (r.diff == "" <==> git(Diff).stdout == "" && git(DiffCached).stdout == "")
    ensures r.DiffFailed? ==> r.cmd == (if git(Diff).GitError? then Diff else DiffCached)
  {
    match git(Diff)
    case GitError(reason) => DiffFailed(Diff, reason)
    case GitOk(working) =>
      match git(DiffCached)
      case GitError(reason) => DiffFailed(DiffCached, reason)
      case GitOk(staged) => DiffOk(working + staged)
  }

  function DiffEffects(git: GitCommand -> GitResult): seq<Effect> {
    if git(Diff).GitOk? then [RanGit(Diff), RanGit(DiffCached)] else [RanGit(Diff)]
  }

  /** The configuration in force after the overrides, when loading succeeds. */
  function Effective(argv: seq<string>, file: ConfigFile): Option<Config> {
    var loaded := Load(file);
    if loaded.Ready? then Some(WithLang(loaded.config, Parsed(argv).lang)) else None
  }

  /** The states of main. Every os.Exit leads to `Stopped`. */
  datatype Stage =
    | Start
    | ArgsParsed(args: CmdArgs)
    | ConfigReady(config: Config, notes: string)
    | Staged(config: Config, notes: string)
    | DiffComputed(config: Config, notes: string, diff: string)
    | MessageGenerated(message: string)
    | Stopped(end: Terminal)

  /** How many actions on the world a run can still take from a stage: the
      template write or the six steps add, status, diff, diff --cached, the
      POST and the commit. */
  function ActionsLeft(s: Stage): nat {
    match s
    case Start => 6
    case ArgsParsed(_) => 6
    case ConfigReady(_, _) => 6
    case Staged(_, _) => 4
    case DiffComputed(_, _, _) => 2
    case MessageGenerated(_) => 1
    case Stopped(_) => 0
  }

  /** How many transitions a stage is at most away from stopping. */
  function Distance(s: Stage): nat {
    match s
    case Start => 6
    case ArgsParsed(_) => 5
    case ConfigReady(_, _) => 4
    case Staged(_, _) => 3
    case DiffComputed(_, _, _) => 2
    case MessageGenerated(_) => 1
    case Stopped(_) => 0
  }

  datatype Transition = Transition(next: Stage, effects: seq<Effect>)

  /** loadConfig and the overrides: help stops the run before anything is
      loaded; a loaded configuration goes on with `--lang=` applied. */
  function AfterArgs(args: CmdArgs, file: ConfigFile): (t: Transition)
    ensures t.next.Stopped? || t.next.ConfigReady?
    ensures t.effects == (if args.showHelp then [] else LoadEffects(file))
  {
    if args.showHelp then Transition(Stopped(HelpShown), [])
    else
      var pre := LoadEffects(file);
      match Load(file)
      case FirstRun => Transition(Stopped(FirstRunDone), pre)
      case Failed(reason) => Transition(Stopped(ConfigFailed(reason)), pre)
      case MissingApiKey => Transition(Stopped(ApiKeyMissing), pre)
      case Ready(loaded) => Transition(ConfigReady(WithLang(loaded, args.lang), args.notes), pre)
  }

  /** `git add .` then `git status`; a failure of either stops the run. */
  function Staging(config: Config, notes: string, git: GitCommand -> GitResult): (t: Transition)
    ensures t.next.Stopped? || t.next == Staged(config, notes)
    ensures t.effects == (if git(Add).GitOk? then [RanGit(Add), RanGit(Status)] else [RanGit(Add)])
  {
    match git(Add)
    case GitError(reason) => Transition(Stopped(GitFailed(Add, reason)), [RanGit(Add)])
    case GitOk(_) =>
      match git(Status)
      case GitError(reason) => Transition(Stopped(GitFailed(Status, reason)), [RanGit(Add), RanGit(Status)])
      case GitOk(_) => Transition(Staged(config, notes), [RanGit(Add), RanGit(Status)])
  }

  /** getGitDiff; an empty diff stops the run. */
  function Diffing(config: Config, notes: string, git: GitCommand -> GitResult): (t: Transition)
    ensures t.effects == DiffEffects(git)
    ensures t.next.Stopped? || t.next.DiffComputed?
  {
    match GitDiff(git)
    case DiffFailed(cmd, reason) => Transition(Stopped(GitFailed(cmd, reason)), DiffEffects(git))
    case DiffOk(diff) =>
      if diff == "" then Transition(Stopped(NoDifferences), DiffEffects(git))
      else Transition(DiffComputed(config, notes, diff), DiffEffects(git))
  }

  /** What follows the POST of `call`: an error stops the run, an empty
      message stops it too, any other message goes on to the commit. */
  function AfterPost(call: ApiCall, generated: Result<string, string>): (t: Transition)
    ensures t.effects == [Posted(call)]
    ensures t.next.Stopped? || t.next.MessageGenerated?
  {
    match generated
    case Failure(reason) => Transition(Stopped(GenerationFailed(reason)), [Posted(call)])
    case Success(message) =>
      if message == "" then Transition(Stopped(NoMessage), [Posted(call)])
      else Transition(MessageGenerated(message), [Posted(call)])
  }

  /** commitChanges: the last step either way. */
  function Committing(message: string, git: GitCommand -> GitResult): (t: Transition)
    ensures t.effects == [RanGit(Commit(message))]
    ensures t.next.Stopped?
  {
    match git(Commit(message))
    case GitError(reason) => Transition(Stopped(GitFailed(Commit(message), reason)), [RanGit(Commit(message))])
    case GitOk(_) => Transition(Stopped(Committed(message)), [RanGit(Commit(message))])
  }

  /** One step of main, with the actions it takes. The machine has no
      cycles: every step from a running stage gets closer to stopping. */
  function Step(s: Stage, argv: seq<string>, env: Env): (t: Transition)
    ensures !s.Stopped? ==> Distance(t.next) < Distance(s)
    ensures s.Stopped? ==> t == Transition(s, [])
    ensures !s.Stopped? ==> |t.effects| + ActionsLeft(t.next) <= ActionsLeft(s)
  {
    match s
    case Start => Transition(ArgsParsed(Parsed(argv)), [])
    case ArgsParsed(args) => AfterArgs(args, env.configFile)
    case ConfigReady(config, notes) => Staging(config, notes, env.git)
    case Staged(config, notes) => Diffing(config, notes, env.git)
    case DiffComputed(config, notes, diff) =>
      var call := BuildCall(config, diff, config.defaultLang, notes);
      AfterPost(call, MessageFrom(env.post(call)))
    case MessageGenerated(message) => Committing(message, env.git)
    case Stopped(_) => Transition(s, [])
  }

  /** Runs the machine from `s` until it stops, collecting the actions. */
  function Drive(s: Stage, argv: seq<string>, env: Env): (r: Outcome)
    ensures |r.effects| <= ActionsLeft(s)
    decreases Distance(s)
  {
    if s.Stopped? then Outcome(s.end, [])
    else
      var t := Step(s, argv, env);
      var rest := Drive(t.next, argv, env);
      Outcome(rest.end, t.effects + rest.effects)
  }

  /** main, from the start. No run takes more than six actions. */
  function Run(argv: seq<string>, env: Env): (r: Outcome)
    ensures |r.effects| <= 6
  {
    Drive(Start, argv, env)
  }

  /** The global configuration once a run has stopped: untouched after help
      or when no file was decoded, the decoded document when it lacks a key,
      and otherwise the defaulted document with the language override. */
  function SettledConfig(argv: seq<string>, file: ConfigFile, prior: Config): Config {
    if Parsed(argv).showHelp then prior
    else match file
      case Present(doc) => if doc.apiKey == "" then doc else WithLang(WithDefaults(doc), Parsed(argv).lang)
      case _ => prior
  }

  /** The global notes once a run has stopped: set from `--notes=` exactly
      when the configuration loaded. */
  function SettledNotes(argv: seq<string>, file: ConfigFile, prior: string): string {
    if !Parsed(argv).showHelp && Load(file).Ready? then Parsed(argv).notes else prior
  }
}
