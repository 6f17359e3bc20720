/** The bootstrap-and-dispatch decision of the CLI entry point. Once the
    file-system probes, the prompt answers and the result of the runtime
    download are given as inputs, `main` is a deterministic decision tree;
    `Decide` is that tree, and its leaves are the `Outcome`s below. */
module Bootstrap {
  import opened Answers
  import opened Classifier
  import opened Reporter

  /** The ambient state the entry point probes: whether the runtime binary
      and bls.toml exist, whether an auth token is stored, and the
      descriptor the config parser would return for bls.toml. */
  datatype Env = Env(
    runtimeExists: bool,
    tomlExists: bool,
    loggedIn: bool,
    descriptor: Descriptor)

  /** What the prompts and the downloader return: the string the prompt
      call returns at the install prompt, the string it returns at the
      initialize prompt, and whether the runtime download and install
      succeeds. How the prompt library turns keystrokes into that string is
      not part of this model. */
  datatype Replies = Replies(installAnswer: string, initAnswer: string, downloadOk: bool)

  /** The interactions `main` performs before reaching its leaf, in order. */
  datatype Effect = AskInstall | Download | AskInitialize

  /** The leaves of the decision tree. */
  datatype Outcome =
    | Exit(code: nat)                  // process terminates with this status
    | RunInit(initArgv: seq<string>)   // init subcommand is run with this vector, then main returns
    | ShowStatus(report: Report)       // status report is printed, then the process exits with 0
    | Route(routerArgv: seq<string>)   // the command router parses this vector

  datatype Decision = Decision(trace: seq<Effect>, outcome: Outcome)

  /** argv.slice(-1): the last token, or nothing for an empty vector. */
  function LastToken(argv: seq<string>): (r: seq<string>)
    ensures |argv| > 0 ==> r == [argv[|argv| - 1]]
    ensures |argv| == 0 ==> r == []
  {
    if |argv| == 0 then [] else argv[|argv| - 1..]
  }

  /** The flags that exempt an invocation from the runtime gate, the status
      report and the initialize prompt alike. */
  predicate Exempt(i: Intent)
  {
    i.version || i.options || i.build
  }

  /** The whole bootstrap decision of one invocation. */
  function Decide(argv: seq<string>, env: Env, replies: Replies): (d: Decision)
    // The install prompt is shown exactly when the runtime is missing and
    // neither version, options nor build was asked for.
    ensures AskInstall in d.trace <==> !env.runtimeExists && !Exempt(Classify(argv))
    // Refusing it exits with 1 before anything else happens.
    ensures AskInstall in d.trace && !IsAffirmative(replies.installAnswer) ==>
      d == Decision([AskInstall], Exit(1))
    // Accepting it downloads once and exits, with 0 on success and 1 on failure.
    ensures AskInstall in d.trace && IsAffirmative(replies.installAnswer) ==>
      d == Decision([AskInstall, Download], Exit(if replies.downloadOk then 0 else 1))
    // Past the runtime gate, init short-circuits with the last token as its argument.
    ensures AskInstall !in d.trace && "init" in argv ==>
      d == Decision([], RunInit(["node", "init", argv[|argv| - 1]]))
    // The status report runs exactly under these conditions, and reports the descriptor.
    ensures d.outcome.ShowStatus? <==>
      env.runtimeExists && env.tomlExists && !Exempt(Classify(argv)) &&
      !Classify(argv).deployTarget && "init" !in argv &&
      !(Classify(argv).help || Classify(argv).preview || Classify(argv).manage || Classify(argv).deploy)
    ensures d.outcome.ShowStatus? ==>
      d.trace == [] && d.outcome.report == BuildReport(env.descriptor, env.loggedIn)
    // The initialize prompt is shown exactly under these conditions ...
    ensures AskInitialize in d.trace <==>
      env.runtimeExists && !env.tomlExists && !Exempt(Classify(argv)) &&
      !Classify(argv).deployTarget && "init" !in argv &&
      !Classify(argv).help && !Classify(argv).registry
    // ... and refusing it exits with 1, accepting it runs init with no name.
    ensures AskInitialize in d.trace ==>
      d == Decision([AskInitialize],
                    if IsAffirmative(replies.initAnswer) then RunInit(["node", "init"]) else Exit(1))
    // At most one question is ever asked.
    ensures !(AskInstall in d.trace && AskInitialize in d.trace)
    // The router always receives the untouched argument vector.
    ensures d.outcome.Route? ==> d == Decision([], Route(argv))
  {
    var i := Classify(argv);
    if !i.version && !i.options && !i.build && !env.runtimeExists then
      // Runtime gate: any answer but yes/y exits; otherwise install and exit.
      if !IsAffirmative(replies.installAnswer) then
        Decision([AskInstall], Exit(1))
      else if !replies.downloadOk then
        Decision([AskInstall, Download], Exit(1))
      else
        Decision([AskInstall, Download], Exit(0))
    else if i.init then
      assert ["node", "init"] + LastToken(argv) == ["node", "init", argv[|argv| - 1]];
      Decision([], RunInit(["node", "init"] + LastToken(argv)))
    else if !i.version && !i.options && !i.build && env.tomlExists && !i.deployTarget then
      if !i.help && !i.preview && !i.manage && !i.deploy then
        Decision([], ShowStatus(BuildReport(env.descriptor, env.loggedIn)))
      else
        Decision([], Route(argv))
    else if !i.version && !i.help && !i.options && !i.registry && !i.build && !i.deployTarget then
      if !IsAffirmative(replies.initAnswer) then
        Decision([AskInitialize], Exit(1))
      else
        Decision([AskInitialize], RunInit(["node", "init"]))
    else
      Decision([], Route(argv))
  }

  /** The router is the fallback: it is reached exactly when no gate, no
      init short-circuit, no status report and no initialize prompt fires. */
  lemma RouterIsTheFallback(argv: seq<string>, env: Env, replies: Replies)
    ensures var d := Decide(argv, env, replies);
      d.outcome.Route? <==>
        AskInstall !in d.trace && AskInitialize !in d.trace &&
        "init" !in argv && !d.outcome.ShowStatus?
  {
  }

  /** Ordering, first step: while the runtime gate applies, nothing later in
      `main` (init, bls.toml, the descriptor, the second prompt) has any
      influence on what happens. */
  lemma RuntimeGateComesFirst(argv: seq<string>, env1: Env, env2: Env, r1: Replies, r2: Replies)
    requires !env1.runtimeExists && !env2.runtimeExists && !Exempt(Classify(argv))
    requires r1.installAnswer == r2.installAnswer && r1.downloadOk == r2.downloadOk
    ensures Decide(argv, env1, r1) == Decide(argv, env2, r2)
  {
  }

  /** Ordering, second step: past the runtime gate, init is decided before
      bls.toml is looked at, so neither the descriptor nor any answer matters. */
  lemma InitComesBeforeDescriptor(argv: seq<string>, env1: Env, env2: Env, r1: Replies, r2: Replies)
    requires "init" in argv
    requires env1.runtimeExists == env2.runtimeExists
    requires env1.runtimeExists || Exempt(Classify(argv))
    ensures Decide(argv, env1, r1) == Decide(argv, env2, r2)
  {
  }

  /** With version, -v, options or build among the tokens, no question is
      asked and no report printed: the invocation runs init when "init" is
      also a token, and goes to the router otherwise. */
  lemma ExemptInvocationsNeverPrompt(argv: seq<string>, env: Env, replies: Replies)
    requires Exempt(Classify(argv))
    ensures Decide(argv, env, replies).trace == []
    ensures Decide(argv, env, replies).outcome ==
      if "init" in argv then RunInit(["node", "init", argv[|argv| - 1]]) else Route(argv)
  {
  }

  /** A targeted deploy with bls.toml present goes to the router, which then
      dispatches `deploy` with its argument. */
  lemma TargetedDeployIsRouted(env: Env, replies: Replies)
    requires env.runtimeExists && env.tomlExists
    ensures Decide(["node", "cli", "deploy", "mytarget"], env, replies)
      == Decision([], Route(["node", "cli", "deploy", "mytarget"]))
  {
  }

  /** A bare invocation without bls.toml asks to initialize; "yes" runs init
      without a project name and never reaches the router. */
  lemma BareInvocationInitializes(env: Env, replies: Replies)
    requires env.runtimeExists && !env.tomlExists && replies.initAnswer == "yes"
    ensures Decide(["node", "cli"], env, replies) == Decision([AskInitialize], RunInit(["node", "init"]))
  {
  }

  /** `init` without a project name hands the token "init" itself to the
      init subcommand as the name, since the last token is always forwarded. */
  lemma BareInitForwardsInitAsName(env: Env, replies: Replies)
    requires env.runtimeExists
    ensures Decide(["node", "cli", "init"], env, replies).outcome == RunInit(["node", "init", "init"])
  {
  }

  /** With bls.toml present, help, preview, manage and deploy skip the
      report and reach the router. */
  lemma ActionableSubcommandsSkipReport(argv: seq<string>, env: Env, replies: Replies)
    requires env.runtimeExists && env.tomlExists && "init" !in argv
    requires "help" in argv || "preview" in argv || "manage" in argv || "deploy" in argv
    ensures Decide(argv, env, replies) == Decision([], Route(argv))
  {
  }
}
