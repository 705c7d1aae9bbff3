/** What every run of the tool guarantees, whatever git, the endpoint and
    the configuration file answer. The argument is an invariant of the
    state machine: each stage, each terminal state and each action records
    what the environment must have answered for the run to get there. */
module PipelineProperties {
  import opened Wrappers
  import opened Strings
  import opened Cli
  import opened Configuration
  import opened Completion
  import opened Pipeline

  /** What a run needs for it to reach the POST: no help, a loaded
      configuration, successful `add` and `status`, and a non-empty diff. */
  predicate ReachesPost(argv: seq<string>, env: Env) {
    !Parsed(argv).showHelp && Effective(argv, env.configFile).Some?
    && env.git(Add).GitOk? && env.git(Status).GitOk?
    && GitDiff(env.git).DiffOk? && GitDiff(env.git).diff != ""
  }

  /** The request a run posts, once it gets that far. */
  function RequestOf(argv: seq<string>, env: Env): ApiCall
    requires Effective(argv, env.configFile).Some? && GitDiff(env.git).DiffOk?
  {
    var config := Effective(argv, env.configFile).value;
    BuildCall(config, GitDiff(env.git).diff, config.defaultLang, Parsed(argv).notes)
  }

  /** What each terminal state says about the environment that led to it. */
  predicate Justified(t: Terminal, argv: seq<string>, env: Env) {
    var noHelp := !Parsed(argv).showHelp;
    match t
    case HelpShown => Parsed(argv).showHelp
    case FirstRunDone => noHelp && env.configFile == Absent(None)
    case ConfigFailed(reason) => noHelp && Load(env.configFile) == Failed(reason)
    case ApiKeyMissing => noHelp && env.configFile.Present? && env.configFile.doc.apiKey == ""
    case GitFailed(cmd, reason) => noHelp && Effective(argv, env.configFile).Some? && env.git(cmd) == GitError(reason)
    case NoDifferences =>
      noHelp && Effective(argv, env.configFile).Some? && env.git(Add).GitOk? && env.git(Status).GitOk?
      && GitDiff(env.git) == DiffOk("")
    case GenerationFailed(reason) =>
      ReachesPost(argv, env) && MessageFrom(env.post(RequestOf(argv, env))) == Failure(reason)
    case NoMessage =>
      ReachesPost(argv, env) && MessageFrom(env.post(RequestOf(argv, env))) == Success("")
    case Committed(message) =>
      ReachesPost(argv, env) && MessageFrom(env.post(RequestOf(argv, env))) == Success(message)
      && message != "" && env.git(Commit(message)).GitOk?
  }

  /** What each action says about the environment that led to it. */
  predicate EffectJustified(e: Effect, argv: seq<string>, env: Env) {
    var noHelp := !Parsed(argv).showHelp;
    var configured := noHelp && Effective(argv, env.configFile).Some?;
    match e
    case WroteTemplate(template) => noHelp && env.configFile.Absent? && template == FirstRunConfig()
    case RanGit(cmd) =>
      (match cmd
       case Add => configured
       case Status => configured && env.git(Add).GitOk?
       case Diff => configured && env.git(Add).GitOk? && env.git(Status).GitOk?
       case DiffCached => configured && env.git(Add).GitOk? && env.git(Status).GitOk? && env.git(Diff).GitOk?
       case Commit(message) =>
         ReachesPost(argv, env) && message != "" && MessageFrom(env.post(RequestOf(argv, env))) == Success(message))
    case Posted(call) => ReachesPost(argv, env) && call == RequestOf(argv, env)
  }

  /** The invariant of the machine: each stage holds exactly what main has
      computed by then from the arguments and the environment. */
  predicate Consistent(s: Stage, argv: seq<string>, env: Env) {
    var noHelp := !Parsed(argv).showHelp;
    match s
    case Start => true
    case ArgsParsed(args) => args == Parsed(argv)
    case ConfigReady(config, notes) =>
      noHelp && Effective(argv, env.configFile) == Some(config) && notes == Parsed(argv).notes
    case Staged(config, notes) =>
      noHelp && Effective(argv, env.configFile) == Some(config) && notes == Parsed(argv).notes
      && env.git(Add).GitOk? && env.git(Status).GitOk?
    case DiffComputed(config, notes, diff) =>
      noHelp && Effective(argv, env.configFile) == Some(config) && notes == Parsed(argv).notes
      && env.git(Add).GitOk? && env.git(Status).GitOk? && GitDiff(env.git) == DiffOk(diff) && diff != ""
    case MessageGenerated(message) =>
      ReachesPost(argv, env) && MessageFrom(env.post(RequestOf(argv, env))) == Success(message) && message != ""
    case Stopped(t) => Justified(t, argv, env)
  }

  /** Every step keeps the invariant and takes only justified actions. */
  lemma StepKeepsConsistent(s: Stage, argv: seq<string>, env: Env)
    requires Consistent(s, argv, env)
    ensures Consistent(Step(s, argv, env).next, argv, env)
    ensures forall e :: e in Step(s, argv, env).effects ==> EffectJustified(e, argv, env)
  {
    match s
    case Start =>
    case ArgsParsed(args) => ArgsParsedKeepsConsistent(args, argv, env);
    case ConfigReady(config, notes) => ConfigReadyKeepsConsistent(config, notes, argv, env);
    case Staged(config, notes) => StagedKeepsConsistent(config, notes, argv, env);
    case DiffComputed(config, notes, diff) => DiffComputedKeepsConsistent(config, notes, diff, argv, env);
    case MessageGenerated(message) => MessageGeneratedKeepsConsistent(message, argv, env);
    case Stopped(_) =>
  }

  lemma ArgsParsedKeepsConsistent(args: CmdArgs, argv: seq<string>, env: Env)
    requires Consistent(ArgsParsed(args), argv, env)
    ensures Consistent(AfterArgs(args, env.configFile).next, argv, env)
    ensures forall e :: e in AfterArgs(args, env.configFile).effects ==> EffectJustified(e, argv, env)
  {
    if !args.showHelp && Load(env.configFile).Ready? {
      assert LoadEffects(env.configFile) == [];
    }
  }

  lemma ConfigReadyKeepsConsistent(config: Config, notes: string, argv: seq<string>, env: Env)
    requires Consistent(ConfigReady(config, notes), argv, env)
    ensures Consistent(Staging(config, notes, env.git).next, argv, env)
    ensures forall e :: e in Staging(config, notes, env.git).effects ==> EffectJustified(e, argv, env)
  {
  }

  lemma StagedKeepsConsistent(config: Config, notes: string, argv: seq<string>, env: Env)
    requires Consistent(Staged(config, notes), argv, env)
    ensures Consistent(Diffing(config, notes, env.git).next, argv, env)
    ensures forall e :: e in Diffing(config, notes, env.git).effects ==> EffectJustified(e, argv, env)
  {
  }

  lemma DiffComputedKeepsConsistent(config: Config, notes: string, diff: string, argv: seq<string>, env: Env)
    requires Consistent(DiffComputed(config, notes, diff), argv, env)
    ensures var call := BuildCall(config, diff, config.defaultLang, notes);
            var t := AfterPost(call, MessageFrom(env.post(call)));
            Consistent(t.next, argv, env) && forall e :: e in t.effects ==> EffectJustified(e, argv, env)
  {
    assert RequestOf(argv, env) == BuildCall(config, diff, config.defaultLang, notes);
  }

  lemma MessageGeneratedKeepsConsistent(message: string, argv: seq<string>, env: Env)
    requires Consistent(MessageGenerated(message), argv, env)
    ensures Consistent(Committing(message, env.git).next, argv, env)
    ensures forall e :: e in Committing(message, env.git).effects ==> EffectJustified(e, argv, env)
  {
  }

  /** From any consistent stage, the machine stops in a justified terminal
      state having taken only justified actions. */
  lemma {:induction false} DriveJustified(s: Stage, argv: seq<string>, env: Env)
    requires Consistent(s, argv, env)
    ensures Justified(Drive(s, argv, env).end, argv, env)
    ensures forall e :: e in Drive(s, argv, env).effects ==> EffectJustified(e, argv, env)
    decreases Distance(s)
  {
    if !s.Stopped? {
      var t := Step(s, argv, env);
      StepKeepsConsistent(s, argv, env);
      DriveJustified(t.next, argv, env);
    }
  }

  /** Every run stops in a justified state after justified actions only. */
  lemma RunJustified(argv: seq<string>, env: Env)
    ensures Justified(Run(argv, env).end, argv, env)
    ensures forall e :: e in Run(argv, env).effects ==> EffectJustified(e, argv, env)
  {
    DriveJustified(Start, argv, env);
  }

  /** One step of the run, unfolded: the actions of the step, then the rest. */
  lemma DriveUnfold(s: Stage, argv: seq<string>, env: Env)
    requires !s.Stopped?
    ensures var t := Step(s, argv, env);
            Drive(s, argv, env) == Outcome(Drive(t.next, argv, env).end, t.effects + Drive(t.next, argv, env).effects)
  {
  }

  /** Help short-circuits: the run stops at the help text exactly when help
      was asked for, and then it has done nothing, not even loaded the
      configuration, and exits with 0. */
  lemma HelpComesFirst(argv: seq<string>, env: Env)
    ensures Run(argv, env).end == HelpShown <==> Parsed(argv).showHelp
    ensures Parsed(argv).showHelp ==> Run(argv, env).effects == [] && ExitStatus(Run(argv, env).end) == 0
  {
    RunJustified(argv, env);
    if Parsed(argv).showHelp {
      DriveUnfold(Start, argv, env);
      DriveUnfold(ArgsParsed(Parsed(argv)), argv, env);
    }
  }

  /** No network call without an API key: every POST goes to the configured
      endpoint with a non-empty key and a complete configuration; a document
      with an empty key stops the run with status 1 before anything is
      posted, unless help stopped it first. */
  lemma NoPostWithoutKey(argv: seq<string>, env: Env)
    ensures forall e :: e in Run(argv, env).effects && e.Posted? ==>
              e.call.apiKey != "" && e.call.endpoint != "" && e.call.body.model != "" && e.call.body.maxTokens > 0
    ensures env.configFile.Present? && env.configFile.doc.apiKey == "" ==>
              (forall e :: e in Run(argv, env).effects ==> !e.Posted?)
              && (Run(argv, env).end == ApiKeyMissing || Run(argv, env).end == HelpShown)
  {
    RunJustified(argv, env);
  }

  /** A POST happens only once the configuration loaded, every git step
      before it succeeded and the combined diff is non-empty; what is posted
      is the prompt for that diff, in the `--lang=` language when one was
      given and in the configured default language otherwise, with the
      `--notes=` text. */
  lemma PostedCallIsBuilt(argv: seq<string>, env: Env, call: ApiCall)
    requires Posted(call) in Run(argv, env).effects
    ensures ReachesPost(argv, env) && call == RequestOf(argv, env)
    ensures Parsed(argv).lang != "" ==>
              call.body.messages == [Message("user", Prompt(Parsed(argv).lang, GitDiff(env.git).diff, Parsed(argv).notes))]
    ensures Parsed(argv).lang == "" ==>
              call.body.messages == [Message("user", Prompt(Load(env.configFile).config.defaultLang, GitDiff(env.git).diff, Parsed(argv).notes))]
  {
    RunJustified(argv, env);
    assert EffectJustified(Posted(call), argv, env);
  }

  /** A commit happens only with a non-empty message, and that message is
      what the endpoint's reply to the run's request yields. */
  lemma CommittedMessageIsGenerated(argv: seq<string>, env: Env, message: string)
    requires RanGit(Commit(message)) in Run(argv, env).effects
    ensures message != "" && ReachesPost(argv, env)
    ensures MessageFrom(env.post(RequestOf(argv, env))) == Success(message)
  {
    RunJustified(argv, env);
    assert EffectJustified(RanGit(Commit(message)), argv, env);
  }

  /** An empty combined diff ends the run with status 0 and nothing posted;
      it happens exactly when both git diffs succeed and print nothing. */
  lemma EmptyDiffIsQuietSuccess(argv: seq<string>, env: Env)
    ensures Run(argv, env).end == NoDifferences <==>
              !Parsed(argv).showHelp && Load(env.configFile).Ready?
              && env.git(Add).GitOk? && env.git(Status).GitOk?
              && env.git(Diff) == GitOk("") && env.git(DiffCached) == GitOk("")
    ensures Run(argv, env).end == NoDifferences ==>
              ExitStatus(Run(argv, env).end) == 0 && forall e :: e in Run(argv, env).effects ==> !e.Posted?
  {
    RunJustified(argv, env);
    var args := Parsed(argv);
    if !args.showHelp && Load(env.configFile).Ready?
       && env.git(Add).GitOk? && env.git(Status).GitOk?
       && env.git(Diff) == GitOk("") && env.git(DiffCached) == GitOk("") {
      var config := Effective(argv, env.configFile).value;
      RunFromConfig(argv, env);
      DriveStaging(config, args.notes, argv, env);
      DriveDiffing(config, args.notes, argv, env);
      assert GitDiff(env.git) == DiffOk("");
    }
  }

  /** An empty generated message ends the run with status 1 and no commit. */
  lemma EmptyMessageNeverCommits(argv: seq<string>, env: Env)
    ensures Run(argv, env).end == NoMessage ==>
              ExitStatus(Run(argv, env).end) == 1
              && (forall e :: e in Run(argv, env).effects ==> !(e.RanGit? && e.cmd.Commit?))
              && ReachesPost(argv, env) && MessageFrom(env.post(RequestOf(argv, env))) == Success("")
  {
    RunJustified(argv, env);
    var o := Run(argv, env);
    if o.end == NoMessage {
      assert Justified(o.end, argv, env);
      forall e | e in o.effects
        ensures !(e.RanGit? && e.cmd.Commit?)
      {
        assert EffectJustified(e, argv, env);
      }
    }
  }

  /** A run exits with 0 exactly when help was asked for, the first-run
      template was written, both diffs were empty after staging, or the
      reply yielded a non-empty message that git committed. A commit is of
      the message the endpoint's reply yielded. */
  lemma SuccessfulRuns(argv: seq<string>, env: Env)
    ensures ExitStatus(Run(argv, env).end) == 0 <==> SucceedsIn(argv, env)
    ensures var o := Run(argv, env);
            o.end.Committed? ==>
              o.end.message != "" && env.git(Commit(o.end.message)).GitOk? && ReachesPost(argv, env)
              && MessageFrom(env.post(RequestOf(argv, env))) == Success(o.end.message)
  {
    RunJustified(argv, env);
    if Parsed(argv).showHelp {
      HelpComesFirst(argv, env);
    } else if env.configFile == Absent(None) {
      FirstRunWritesTemplate(argv, env);
    } else if Effective(argv, env.configFile).Some? && env.git(Add).GitOk? && env.git(Status).GitOk?
              && GitDiff(env.git) == DiffOk("") {
      EmptyDiffIsQuietSuccess(argv, env);
    } else if ReachesPost(argv, env) && MessageFrom(env.post(RequestOf(argv, env))).Success? {
      var message := MessageFrom(env.post(RequestOf(argv, env))).value;
      if message != "" && env.git(Commit(message)).GitOk? {
        CommitFollowsMessage(argv, env, message);
      }
    }
  }

  /** The environments in which main exits with 0, stated on the inputs alone. */
  predicate SucceedsIn(argv: seq<string>, env: Env) {
    var noHelp := !Parsed(argv).showHelp;
    Parsed(argv).showHelp
    || (noHelp && env.configFile == Absent(None))
    || (noHelp && Effective(argv, env.configFile).Some? && env.git(Add).GitOk? && env.git(Status).GitOk?
        && GitDiff(env.git) == DiffOk(""))
    || (ReachesPost(argv, env) && MessageFrom(env.post(RequestOf(argv, env))).Success?
        && MessageFrom(env.post(RequestOf(argv, env))).value != ""
        && env.git(Commit(MessageFrom(env.post(RequestOf(argv, env))).value)).GitOk?)
  }

  /** A git failure stops the run; it is reported for a command git really
      failed on, with git's own error. */
  lemma GitFailureStops(argv: seq<string>, env: Env)
    ensures var o := Run(argv, env);
            o.end.GitFailed? ==> ExitStatus(o.end) == 1 && env.git(o.end.cmd) == GitError(o.end.reason)
  {
    RunJustified(argv, env);
  }

  /** The position of each kind of action in the pipeline. */
  function Rank(e: Effect): nat {
    match e
    case WroteTemplate(_) => 0
    case RanGit(cmd) =>
      (match cmd
       case Add => 1
       case Status => 2
       case Diff => 3
       case DiffCached => 4
       case Commit(_) => 6)
    case Posted(_) => 5
  }

  /** The lowest rank an action taken from stage `s` onwards can have. */
  function StageRank(s: Stage): nat {
    match s
    case Start => 0
    case ArgsParsed(_) => 0
    case ConfigReady(_, _) => 1
    case Staged(_, _) => 3
    case DiffComputed(_, _, _) => 5
    case MessageGenerated(_) => 6
    case Stopped(_) => 7
  }

  /** Each action comes after those of earlier stages. */
  predicate InStageOrder(effects: seq<Effect>) {
    forall i :: 0 <= i < |effects| - 1 ==> Rank(effects[i]) < Rank(effects[i + 1])
  }

  lemma InStageOrderAppend(s: seq<Effect>, t: seq<Effect>)
    requires InStageOrder(s) && InStageOrder(t)
    requires s != [] && t != [] ==> Rank(s[|s| - 1]) < Rank(t[0])
    ensures InStageOrder(s + t)
  {
    var st := s + t;
    forall i | 0 <= i < |st| - 1
      ensures Rank(st[i]) < Rank(st[i + 1])
    {
      if i < |s| - 1 {
        assert st[i] == s[i] && st[i + 1] == s[i + 1];
      } else if i == |s| - 1 {
        assert st[i] == s[|s| - 1] && st[i + 1] == t[0];
      } else {
        assert st[i] == t[i - |s|] && st[i + 1] == t[i - |s| + 1];
      }
    }
  }

  /** The actions of a transition from `s` are in order, no earlier than
      the stage and earlier than anything the next stage can do. */
  predicate OrderedFrom(s: Stage, t: Transition) {
    InStageOrder(t.effects)
    && (forall i :: 0 <= i < |t.effects| ==> StageRank(s) <= Rank(t.effects[i]) < StageRank(t.next))
  }

  lemma ConfigReadyInOrder(config: Config, notes: string, argv: seq<string>, env: Env)
    ensures OrderedFrom(ConfigReady(config, notes), Step(ConfigReady(config, notes), argv, env))
  {
  }

  lemma StagedInOrder(config: Config, notes: string, argv: seq<string>, env: Env)
    ensures OrderedFrom(Staged(config, notes), Step(Staged(config, notes), argv, env))
  {
  }

  lemma DiffComputedInOrder(config: Config, notes: string, diff: string, argv: seq<string>, env: Env)
    ensures OrderedFrom(DiffComputed(config, notes, diff), Step(DiffComputed(config, notes, diff), argv, env))
  {
    var call := BuildCall(config, diff, config.defaultLang, notes);
    AfterPostInOrder(call, MessageFrom(env.post(call)));
  }

  lemma AfterPostInOrder(call: ApiCall, generated: Result<string, string>)
    ensures forall config, notes, diff :: OrderedFrom(DiffComputed(config, notes, diff), AfterPost(call, generated))
  {
    var t := AfterPost(call, generated);
    assert StageRank(t.next) > 5;
  }

  /** The actions of one step are in order, no earlier than the stage and
      earlier than anything the next stage can do. */
  lemma StepInOrder(s: Stage, argv: seq<string>, env: Env)
    ensures OrderedFrom(s, Step(s, argv, env))
  {
    match s
    case Start =>
    case ArgsParsed(args) =>
    case ConfigReady(config, notes) => ConfigReadyInOrder(config, notes, argv, env);
    case Staged(config, notes) => StagedInOrder(config, notes, argv, env);
    case DiffComputed(config, notes, diff) => DiffComputedInOrder(config, notes, diff, argv, env);
    case MessageGenerated(message) =>
    case Stopped(_) =>
  }

  /** From stage `s` on, the actions come in pipeline order, so each of the
      git steps, the POST and the commit happens at most once and never
      before the steps it depends on. */
  lemma {:induction false} DriveInOrder(s: Stage, argv: seq<string>, env: Env)
    ensures InStageOrder(Drive(s, argv, env).effects)
    ensures forall e :: e in Drive(s, argv, env).effects ==> StageRank(s) <= Rank(e)
    decreases Distance(s)
  {
    if !s.Stopped? {
      var t := Step(s, argv, env);
      var rest := Drive(t.next, argv, env);
      StepInOrder(s, argv, env);
      DriveInOrder(t.next, argv, env);
      if t.effects != [] && rest.effects != [] {
        assert rest.effects[0] in rest.effects;
      }
      InStageOrderAppend(t.effects, rest.effects);
      forall e | e in t.effects + rest.effects ensures StageRank(s) <= Rank(e) {
        if e in t.effects {
          var i :| 0 <= i < |t.effects| && t.effects[i] == e;
        }
      }
    }
  }

  /** First run: without a configuration file the tool writes the template
      and exits with 0; the template has no key, so a run on it unedited
      stops at the missing key. */
  lemma FirstRunWritesTemplate(argv: seq<string>, env: Env)
    requires !Parsed(argv).showHelp && env.configFile == Absent(None)
    ensures Run(argv, env) == Outcome(FirstRunDone, [WroteTemplate(FirstRunConfig())])
    ensures Load(Present(FirstRunConfig())) == MissingApiKey
  {
    DriveUnfold(Start, argv, env);
    DriveUnfold(ArgsParsed(Parsed(argv)), argv, env);
  }

  lemma LoadStep(argv: seq<string>, env: Env)
    requires !Parsed(argv).showHelp && Load(env.configFile).Ready?
    ensures Step(ArgsParsed(Parsed(argv)), argv, env)
         == Transition(ConfigReady(Effective(argv, env.configFile).value, Parsed(argv).notes), [])
  {
    assert LoadEffects(env.configFile) == [];
  }

  /** A run that does not ask for help and has a configuration carries on
      from the loaded configuration, having done nothing yet. */
  lemma RunFromConfig(argv: seq<string>, env: Env)
    requires !Parsed(argv).showHelp && Load(env.configFile).Ready?
    ensures Run(argv, env) == Drive(ConfigReady(Effective(argv, env.configFile).value, Parsed(argv).notes), argv, env)
  {
    DriveUnfold(Start, argv, env);
    DriveUnfold(ArgsParsed(Parsed(argv)), argv, env);
    LoadStep(argv, env);
  }

  /** A run that does not ask for help but has no configuration stops in
      loadConfig, having at most tried to write the template. */
  lemma RunStopsInLoad(argv: seq<string>, env: Env)
    requires !Parsed(argv).showHelp && !Load(env.configFile).Ready?
    ensures Run(argv, env).effects == LoadEffects(env.configFile)
    ensures Load(env.configFile) == FirstRun ==> Run(argv, env).end == FirstRunDone
    ensures Load(env.configFile).Failed? ==> Run(argv, env).end == ConfigFailed(Load(env.configFile).reason)
    ensures Load(env.configFile) == MissingApiKey ==> Run(argv, env).end == ApiKeyMissing
  {
    DriveUnfold(Start, argv, env);
    DriveUnfold(ArgsParsed(Parsed(argv)), argv, env);
    var t := Step(ArgsParsed(Parsed(argv)), argv, env);
    assert t.next.Stopped? && t.effects == LoadEffects(env.configFile);
  }

  /** The run from a loaded configuration: a failed `add` or `status`
      stops it where it failed, otherwise it goes on from the staged state. */
  lemma DriveStaging(config: Config, notes: string, argv: seq<string>, env: Env)
    ensures var d := Drive(ConfigReady(config, notes), argv, env);
            var rest := Drive(Staged(config, notes), argv, env);
            (env.git(Add).GitError? ==> d == Outcome(GitFailed(Add, env.git(Add).reason), [RanGit(Add)]))
            && (env.git(Add).GitOk? && env.git(Status).GitError? ==>
                  d == Outcome(GitFailed(Status, env.git(Status).reason), [RanGit(Add), RanGit(Status)]))
            && (env.git(Add).GitOk? && env.git(Status).GitOk? ==>
                  d == Outcome(rest.end, [RanGit(Add), RanGit(Status)] + rest.effects))
  {
    DriveUnfold(ConfigReady(config, notes), argv, env);
  }

  /** The run from the staged state: a failed diff stops it, an empty diff
      stops it quietly, otherwise it goes on with the diff. */
  lemma DriveDiffing(config: Config, notes: string, argv: seq<string>, env: Env)
    ensures var d := Drive(Staged(config, notes), argv, env);
            var g := GitDiff(env.git);
            (g.DiffFailed? ==> d == Outcome(GitFailed(g.cmd, g.reason), DiffEffects(env.git)))
            && (g == DiffOk("") ==> d == Outcome(NoDifferences, DiffEffects(env.git)))
            && (g.DiffOk? && g.diff != "" ==>
                  var rest := Drive(DiffComputed(config, notes, g.diff), argv, env);
                  d == Outcome(rest.end, DiffEffects(env.git) + rest.effects))
  {
    DriveUnfold(Staged(config, notes), argv, env);
  }

  /** The run from a diff: the reply's failure or an empty message stops
      it, otherwise it goes on with the message. */
  lemma DriveGenerating(config: Config, notes: string, diff: string, argv: seq<string>, env: Env)
    ensures var d := Drive(DiffComputed(config, notes, diff), argv, env);
            var call := BuildCall(config, diff, config.defaultLang, notes);
            var g := MessageFrom(env.post(call));
            (g.Failure? ==> d == Outcome(GenerationFailed(g.error), [Posted(call)]))
            && (g == Success("") ==> d == Outcome(NoMessage, [Posted(call)]))
            && (g.Success? && g.value != "" ==>
                  var rest := Drive(MessageGenerated(g.value), argv, env);
                  d == Outcome(rest.end, [Posted(call)] + rest.effects))
  {
    DriveUnfold(DiffComputed(config, notes, diff), argv, env);
  }

  /** The run from a message: the commit, and the end either way. */
  lemma DriveCommitting(message: string, argv: seq<string>, env: Env)
    ensures var d := Drive(MessageGenerated(message), argv, env);
            (env.git(Commit(message)).GitError? ==>
               d == Outcome(GitFailed(Commit(message), env.git(Commit(message)).reason), [RanGit(Commit(message))]))
            && (env.git(Commit(message)).GitOk? ==> d == Outcome(Committed(message), [RanGit(Commit(message))]))
  {
    DriveUnfold(MessageGenerated(message), argv, env);
  }

  lemma StageStep(config: Config, notes: string, argv: seq<string>, env: Env)
    requires env.git(Add).GitOk? && env.git(Status).GitOk?
    ensures Step(ConfigReady(config, notes), argv, env) == Transition(Staged(config, notes), [RanGit(Add), RanGit(Status)])
  {
  }

  lemma DiffStep(config: Config, notes: string, argv: seq<string>, env: Env)
    requires GitDiff(env.git).DiffOk? && GitDiff(env.git).diff != ""
    ensures Step(Staged(config, notes), argv, env)
         == Transition(DiffComputed(config, notes, GitDiff(env.git).diff), [RanGit(Diff), RanGit(DiffCached)])
  {
  }

  /** A run that meets everything the POST needs gets there having run
      the four git steps, and continues from the diff it computed. */
  lemma RunReachesPost(argv: seq<string>, env: Env)
    requires ReachesPost(argv, env)
    ensures var config := Effective(argv, env.configFile).value;
            var rest := Drive(DiffComputed(config, Parsed(argv).notes, GitDiff(env.git).diff), argv, env);
            Run(argv, env) == Outcome(rest.end, [RanGit(Add), RanGit(Status), RanGit(Diff), RanGit(DiffCached)] + rest.effects)
  {
    var args := Parsed(argv);
    var config := Effective(argv, env.configFile).value;
    var diff := GitDiff(env.git).diff;
    DriveUnfold(Start, argv, env);
    DriveUnfold(ArgsParsed(args), argv, env);
    LoadStep(argv, env);
    DriveUnfold(ConfigReady(config, args.notes), argv, env);
    StageStep(config, args.notes, argv, env);
    DriveUnfold(Staged(config, args.notes), argv, env);
    DiffStep(config, args.notes, argv, env);
    var rest := Drive(DiffComputed(config, args.notes, diff), argv, env);
    assert [RanGit(Add), RanGit(Status)] + ([RanGit(Diff), RanGit(DiffCached)] + rest.effects)
        == [RanGit(Add), RanGit(Status), RanGit(Diff), RanGit(DiffCached)] + rest.effects;
  }

  lemma PostStep(config: Config, notes: string, diff: string, argv: seq<string>, env: Env, message: string)
    requires MessageFrom(env.post(BuildCall(config, diff, config.defaultLang, notes))) == Success(message)
    requires message != ""
    ensures Step(DiffComputed(config, notes, diff), argv, env)
         == Transition(MessageGenerated(message), [Posted(BuildCall(config, diff, config.defaultLang, notes))])
  {
    var call := BuildCall(config, diff, config.defaultLang, notes);
    PostCallStep(config, notes, diff, argv, env, call);
    assert AfterPost(call, Success(message)) == Transition(MessageGenerated(message), [Posted(call)]);
  }

  lemma PostCallStep(config: Config, notes: string, diff: string, argv: seq<string>, env: Env, call: ApiCall)
    requires call == BuildCall(config, diff, config.defaultLang, notes)
    ensures Step(DiffComputed(config, notes, diff), argv, env) == AfterPost(call, MessageFrom(env.post(call)))
  {
  }

  lemma CommitStep(message: string, argv: seq<string>, env: Env)
    requires env.git(Commit(message)).GitOk?
    ensures Drive(MessageGenerated(message), argv, env) == Outcome(Committed(message), [RanGit(Commit(message))])
  {
    DriveUnfold(MessageGenerated(message), argv, env);
  }

  const RetryMessage := "Add retry logic"

  lemma RetryMessageIsClean()
    ensures CleanCompletion(RetryMessage) == RetryMessage
  {
    assert Unpadded(RetryMessage) && !HasPrefix(RetryMessage, Quote) && !HasSuffix(RetryMessage, Quote);
  }

  /** A run that reaches the POST, gets a non-empty message back and has
      git accept the commit ends committed with that message, after exactly
      the six actions of the pipeline. */
  lemma CommitFollowsMessage(argv: seq<string>, env: Env, message: string)
    requires ReachesPost(argv, env)
    requires MessageFrom(env.post(RequestOf(argv, env))) == Success(message)
    requires message != "" && env.git(Commit(message)).GitOk?
    ensures Run(argv, env) == Outcome(Committed(message),
              [RanGit(Add), RanGit(Status), RanGit(Diff), RanGit(DiffCached), Posted(RequestOf(argv, env)), RanGit(Commit(message))])
  {
    RunReachesPost(argv, env);
    var config := Effective(argv, env.configFile).value;
    var notes := Parsed(argv).notes;
    var diff := GitDiff(env.git).diff;
    var at := DiffComputed(config, notes, diff);
    DriveUnfold(at, argv, env);
    PostStep(config, notes, diff, argv, env, message);
    CommitStep(message, argv, env);
    assert Drive(at, argv, env).effects == [Posted(RequestOf(argv, env)), RanGit(Commit(message))];
  }

  /** The end-to-end case: a valid configuration, a non-empty diff and a
      reply whose only choice says "Add retry logic", under any role, end
      in a commit of exactly that message and status 0. */
  lemma CommitsGeneratedMessage(argv: seq<string>, env: Env, role: string)
    requires !Parsed(argv).showHelp && Load(env.configFile).Ready?
    requires env.git(Add).GitOk? && env.git(Status).GitOk?
    requires env.git(Diff).GitOk? && env.git(DiffCached).GitOk?
    requires env.git(Diff).stdout + env.git(DiffCached).stdout != ""
    requires env.post(RequestOf(argv, env)) ==
               Decoded(ChatResponse([Choice(Message(role, RetryMessage))], None))
    requires env.git(Commit(RetryMessage)).GitOk?
    ensures Run(argv, env).end == Committed(RetryMessage) && ExitStatus(Run(argv, env).end) == 0
    ensures RanGit(Commit(RetryMessage)) in Run(argv, env).effects
  {
    RetryMessageIsClean();
    var resp := ChatResponse([Choice(Message(role, RetryMessage))], None);
    InterpretTakesFirstChoice(resp);
    CommitFollowsMessage(argv, env, RetryMessage);
  }
}
