/** The command classifier: before any real argument parsing, the raw
    argument vector (process.argv, interpreter and script path included) is
    scanned for fixed keywords, each giving one boolean intent flag. */
module Classifier {

  /** The intent flags. They are not mutually exclusive: any number of
      them may hold for one argument vector. */
  datatype Intent = Intent(
    version: bool,
    options: bool,
    build: bool,
    init: bool,
    help: bool,
    preview: bool,
    manage: bool,
    deploy: bool,
    registry: bool,
    deployTarget: bool)

  /** Every token that some flag tests for. */
  const Keywords: set<string> :=
    {"version", "-v", "options", "build", "init", "help", "-h", "--help",
     "preview", "manage", "deploy", "registry"}

  /** Classifies an argument vector. Each flag is a whole-token membership
      test; `deployTarget` is the length heuristic "deploy is present and
      there are more than three tokens". */
  function Classify(argv: seq<string>): (i: Intent)
    ensures i.version <==> "version" in argv || "-v" in argv
    ensures i.help <==> "help" in argv || "-h" in argv || "--help" in argv
    ensures i.options <==> "options" in argv
    ensures i.build <==> "build" in argv
    ensures i.init <==> "init" in argv
    ensures i.preview <==> "preview" in argv
    ensures i.manage <==> "manage" in argv
    ensures i.deploy <==> "deploy" in argv
    ensures i.registry <==> "registry" in argv
    ensures i.deployTarget <==> "deploy" in argv && |argv| > 3
    ensures i.deployTarget ==> i.deploy
  {
    var deploy := "deploy" in argv;
    Intent(
      version := "version" in argv || "-v" in argv,
      options := "options" in argv,
      build := "build" in argv,
      init := "init" in argv,
      help := "help" in argv || "-h" in argv || "--help" in argv,
      preview := "preview" in argv,
      manage := "manage" in argv,
      deploy := deploy,
      registry := "registry" in argv,
      deployTarget := deploy && |argv| > 3)
  }

  /** No flag at all: what an invocation made only of unknown tokens gets. */
  predicate NoIntent(i: Intent)
  {
    !i.version && !i.options && !i.build && !i.init && !i.help &&
    !i.preview && !i.manage && !i.deploy && !i.registry && !i.deployTarget
  }

  /** Only the keyword tokens that occur, and the number of tokens, decide
      the classification: order, repetition and every other token are
      irrelevant. */
  lemma OnlyKeywordsMatter(a: seq<string>, b: seq<string>)
    requires |a| == |b|
    requires forall t :: t in Keywords ==> (t in a <==> t in b)
    ensures Classify(a) == Classify(b)
  {
  }

  /** An argument vector without any keyword token classifies as no intent,
      whatever its length. */
  lemma UnknownTokensClassifyNothing(argv: seq<string>)
    requires forall k :: 0 <= k < |argv| ==> argv[k] !in Keywords
    ensures NoIntent(Classify(argv))
  {
  }

  /** The deploy-target heuristic counts tokens, not positional arguments: a
      bare `deploy` followed by a flag already looks like a targeted deploy,
      while `deploy` as the only user token does not. */
  lemma DeployTargetIsALengthTest()
    ensures Classify(["node", "blessnet", "deploy", "--verbose"]).deployTarget
    ensures Classify(["node", "blessnet", "deploy", "mytarget"]).deployTarget
    ensures !Classify(["node", "blessnet", "deploy"]).deployTarget
  {
  }
}
