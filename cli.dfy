/** The stdio entry point's decision (src/cli/index.ts, `parseCli`): print
    help and exit 0, print the resolution error and exit 1, or hand back the
    resolved configuration. Printing and exiting become an outcome value. */
module Cli {
  import opened Wrappers
  import opened JsArgs
  import opened Text
  import opened CliResolve

  /** What `parseCli` does: help (exit 0), failure with the line written to
      stderr (exit 1), or the configuration it returns. */
  datatype CliOutcome = Help | Fail(message: string) | Config(config: CliConfig)

  /** The process exit code of an outcome; `None` when the process goes on. */
  function ExitCode(outcome: CliOutcome): Option<int> {
    match outcome
    case Help => Some(0)
    case Fail(_) => Some(1)
    case Config(_) => None
  }

  /** `argv.help === true || argv.h === true`: only the boolean `true` counts. */
  predicate HelpRequested(argv: ParsedArgs) {
    Arg(argv, "help") == Some(Bool(true)) || Arg(argv, "h") == Some(Bool(true))
  }

  /** `console.error('Error:', error)` writes its arguments separated by a space. */
  function ErrorLine(error: string): string {
    "Error: " + error
  }

  function ParseCli(argv: ParsedArgs, env: Env, parseReplierAddresses: ReplierParser): (outcome: CliOutcome)
    ensures outcome.Help? <==> HelpRequested(argv)
    ensures !HelpRequested(argv) && ResolveConfig(argv, env, parseReplierAddresses).Rejected? ==>
      outcome == Fail("Error: " + NoApiKeyError)
    ensures !HelpRequested(argv) && ResolveConfig(argv, env, parseReplierAddresses).Resolved? ==>
      outcome == Config(ResolveConfig(argv, env, parseReplierAddresses).config)
  {
    if HelpRequested(argv) then Help
    else
      match ResolveConfig(argv, env, parseReplierAddresses)
      case Rejected(error) => Fail(ErrorLine(error))
      case Resolved(config) => Config(config)
  }

  /** Help is decided before resolution: it wins even with no API key at all. */
  lemma HelpNeedsNoApiKey(argv: ParsedArgs, env: Env, parseReplierAddresses: ReplierParser)
    requires HelpRequested(argv)
    ensures ParseCli(argv, env, parseReplierAddresses) == Help
    ensures ParseCli(argv - {"key"}, map[], parseReplierAddresses) == Help
    ensures ExitCode(ParseCli(argv, env, parseReplierAddresses)) == Some(0)
  {
    assert Arg(argv - {"key"}, "help") == Arg(argv, "help");
    assert Arg(argv - {"key"}, "h") == Arg(argv, "h");
  }

  /** A truthy value other than the boolean `true` (a string, a number) does
      not ask for help: the outcome is that of resolution. */
  lemma TruthyNonBooleanIsNotHelp(argv: ParsedArgs, env: Env, parseReplierAddresses: ReplierParser)
    requires "help" in argv && !argv["help"].Bool?
    requires "h" !in argv
    ensures !ParseCli(argv, env, parseReplierAddresses).Help?
    ensures ExitCode(ParseCli(argv, env, parseReplierAddresses)) == Some(1) <==>
      ResolveConfig(argv, env, parseReplierAddresses).Rejected?
  {
  }

  /** Both outcomes of resolution, as seen by the caller of `parseCli`. */
  lemma ResolutionOutcome(argv: ParsedArgs, env: Env, parseReplierAddresses: ReplierParser)
    requires !HelpRequested(argv)
    ensures ExitCode(ParseCli(argv, env, parseReplierAddresses)) == Some(1) <==>
      ResolveConfig(argv, env, parseReplierAddresses).Rejected?
    ensures ExitCode(ParseCli(argv, env, parseReplierAddresses)).None? <==>
      ResolveConfig(argv, env, parseReplierAddresses).Resolved?
  {
  }

  /** The entry point's test with no arguments and an empty environment. */
  lemma NoKeyFailsExample(argv: ParsedArgs, env: Env)
    requires argv == map[] && env == map[]
    ensures ParseCli(argv, env, ArrayOrStringRepliers) == Fail("Error: " + NoApiKeyError)
    ensures ExitCode(ParseCli(argv, env, ArrayOrStringRepliers)) == Some(1)
  {
    assert !HelpRequested(argv);
    NoKeyExample(argv, env);
  }

  lemma ValidConfigParts(argv: ParsedArgs, env: Env, key: string, sender: string)
    requires key == "re_abc" && sender == "x@r.dev"
    requires argv == map["key" := Str(key), "sender" := Str(sender)] && env == map[]
    ensures !HelpRequested(argv)
    ensures ChosenApiKey(argv, env) == Some(key)
    ensures ResolveSender(argv, env) == sender
    ensures ArrayOrStringRepliers(argv, env) == []
  {
  }

  /** The entry point's test with `--key re_abc --sender x@r.dev`: the
      configuration comes back as is and the process goes on. */
  lemma ValidConfigExample(argv: ParsedArgs, env: Env, key: string, sender: string)
    requires key == "re_abc" && sender == "x@r.dev"
    requires argv == map["key" := Str(key), "sender" := Str(sender)] && env == map[]
    ensures ParseCli(argv, env, ArrayOrStringRepliers) == Config(CliConfig(key, sender, []))
  {
    ValidConfigParts(argv, env, key, sender);
    TrimUnpadded(key);
    ResolvesTo(argv, env, ArrayOrStringRepliers, key);
  }
}
