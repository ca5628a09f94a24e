/** Configuration resolution of the stdio server (src/cli/resolve.ts), with
    the configuration and result types of src/cli/types.ts. A pure function of
    the parsed argv and the environment; it neither prints nor exits. */
module CliResolve {
  import opened Wrappers
  import opened Text
  import opened JsArgs

  /** The resolved configuration: exactly these three fields. */
  datatype CliConfig = CliConfig(apiKey: string, senderEmailAddress: string, replierEmailAddresses: seq<string>)

  /** `{ ok: true, config }` or `{ ok: false, error }`. */
  datatype ResolveResult = Resolved(config: CliConfig) | Rejected(error: string)

  const NoApiKeyError := "No API key. Set RESEND_API_KEY or use --key=<your-resend-api-key>"

  /** `parseReplierAddresses` of src/cli/parse.ts, which this model treats as
      an uninterpreted function supplied by the caller. */
  type ReplierParser = (ParsedArgs, Env) -> seq<string>

  /** `(typeof parsed.key === 'string' ? parsed.key : null) ?? env.RESEND_API_KEY ?? null`. */
  function ChosenApiKey(parsed: ParsedArgs, env: Env): (key: Option<string>)
    ensures IsString(Arg(parsed, "key")) ==> key == Some(parsed["key"].s)
    ensures !IsString(Arg(parsed, "key")) && "RESEND_API_KEY" in env ==> key == Some(env["RESEND_API_KEY"])
    ensures key.None? <==> !IsString(Arg(parsed, "key")) && "RESEND_API_KEY" !in env
  {
    (if IsString(Arg(parsed, "key")) then Some(parsed["key"].s) else None)
      .OrElse(EnvVar(env, "RESEND_API_KEY"))
  }

  /** The default sender: a string `--sender` verbatim, otherwise the trimmed
      `SENDER_EMAIL_ADDRESS` when that is not blank, otherwise `''`. */
  function ResolveSender(parsed: ParsedArgs, env: Env): (sender: string)
    ensures IsString(Arg(parsed, "sender")) ==> sender == parsed["sender"].s
    ensures !IsString(Arg(parsed, "sender")) && "SENDER_EMAIL_ADDRESS" in env ==>
      sender == Trim(env["SENDER_EMAIL_ADDRESS"])
    ensures !IsString(Arg(parsed, "sender")) && "SENDER_EMAIL_ADDRESS" !in env ==> sender == ""
  {
    var fromEnv: Option<string> :=
      match EnvVar(env, "SENDER_EMAIL_ADDRESS")
      case Some(v) => if Trim(v) != "" then Some(Trim(v)) else None
      case None => None;
    (if IsString(Arg(parsed, "sender")) then Some(parsed["sender"].s) else None)
      .OrElse(fromEnv)
      .GetOr("")
  }

  /** `resolveConfig(parsed, env)`: rejected when the chosen key is missing
      or trims to nothing, otherwise the trimmed key with the resolved sender
      and reply-to list. */
  function ResolveConfig(parsed: ParsedArgs, env: Env, parseReplierAddresses: ReplierParser): (r: ResolveResult)
    ensures r.Rejected? ==> r.error == NoApiKeyError
    ensures r.Resolved? ==>
      && ChosenApiKey(parsed, env).Some?
      && r.config == CliConfig(Trim(ChosenApiKey(parsed, env).value), ResolveSender(parsed, env), parseReplierAddresses(parsed, env))
      && r.config.apiKey != ""
  {
    var apiKey := ChosenApiKey(parsed, env);
    if apiKey.None? || apiKey.value == "" || Trim(apiKey.value) == "" then
      Rejected(NoApiKeyError)
    else
      Resolved(CliConfig(Trim(apiKey.value), ResolveSender(parsed, env), parseReplierAddresses(parsed, env)))
  }

  /** Resolution fails exactly when the chosen key (a string `--key`, else
      `RESEND_API_KEY`) is missing or consists of whitespace only. */
  lemma {:induction false} RejectedIffBlankKey(parsed: ParsedArgs, env: Env, parseReplierAddresses: ReplierParser)
    ensures ResolveConfig(parsed, env, parseReplierAddresses).Rejected? <==>
      if IsString(Arg(parsed, "key")) then AllWhitespace(parsed["key"].s)
      else "RESEND_API_KEY" !in env || AllWhitespace(env["RESEND_API_KEY"])
  {
    var apiKey := ChosenApiKey(parsed, env);
    if apiKey.Some? {
      assert Trim(apiKey.value) == "" <==> AllWhitespace(apiKey.value);
      if apiKey.value == "" {
        assert AllWhitespace(apiKey.value);
      }
    }
  }

  /** Resolution succeeds exactly when the chosen key trims to something, and
      then the key is that trim. */
  lemma ResolvedKey(parsed: ParsedArgs, env: Env, parseReplierAddresses: ReplierParser)
    ensures ResolveConfig(parsed, env, parseReplierAddresses).Resolved? <==>
      ChosenApiKey(parsed, env).Some? && Trim(ChosenApiKey(parsed, env).value) != ""
    ensures ResolveConfig(parsed, env, parseReplierAddresses).Resolved? ==>
      ResolveConfig(parsed, env, parseReplierAddresses).config.apiKey == Trim(ChosenApiKey(parsed, env).value)
  {
    assert AllWhitespace("");
  }

  /** A resolved API key is non-empty and has no surrounding whitespace. */
  lemma {:induction false} ResolvedApiKeyIsTrimmed(parsed: ParsedArgs, env: Env, parseReplierAddresses: ReplierParser)
    requires ResolveConfig(parsed, env, parseReplierAddresses).Resolved?
    ensures var key := ResolveConfig(parsed, env, parseReplierAddresses).config.apiKey;
      key != "" && Trim(key) == key && !IsWhitespace(key[0]) && !IsWhitespace(key[|key| - 1])
  {
    ResolvedKey(parsed, env, parseReplierAddresses);
    TrimmedIsTrimmed(ResolveConfig(parsed, env, parseReplierAddresses).config.apiKey, ChosenApiKey(parsed, env).value);
  }

  /** A string `--key` wins over `RESEND_API_KEY`, whatever the environment holds. */
  lemma CliKeyTakesPrecedence(parsed: ParsedArgs, env1: Env, env2: Env, parseReplierAddresses: ReplierParser)
    requires IsString(Arg(parsed, "key"))
    ensures ResolveConfig(parsed, env1, parseReplierAddresses).Rejected? ==
            ResolveConfig(parsed, env2, parseReplierAddresses).Rejected?
    ensures ResolveConfig(parsed, env1, parseReplierAddresses).Resolved? ==>
            ResolveConfig(parsed, env1, parseReplierAddresses).config.apiKey ==
            ResolveConfig(parsed, env2, parseReplierAddresses).config.apiKey
  {
  }

  /** Because `??` only skips `null`, a blank string `--key` is chosen and then
      rejected even when `RESEND_API_KEY` holds a valid key. */
  lemma BlankCliKeyShadowsEnvKey(parsed: ParsedArgs, env: Env, parseReplierAddresses: ReplierParser)
    requires IsString(Arg(parsed, "key")) && AllWhitespace(parsed["key"].s)
    requires "RESEND_API_KEY" in env && !AllWhitespace(env["RESEND_API_KEY"])
    ensures ResolveConfig(parsed, env, parseReplierAddresses) == Rejected(NoApiKeyError)
  {
    RejectedIffBlankKey(parsed, env, parseReplierAddresses);
  }

  /** A `--key` that is not a string (a bare flag, a number, a repeated option)
      is ignored: resolution behaves as if it were not given. */
  lemma NonStringKeyFallsThrough(parsed: ParsedArgs, env: Env, parseReplierAddresses: ReplierParser)
    requires "key" in parsed && !parsed["key"].Str?
    requires parseReplierAddresses(parsed, env) == parseReplierAddresses(parsed - {"key"}, env)
    ensures ResolveConfig(parsed, env, parseReplierAddresses) == ResolveConfig(parsed - {"key"}, env, parseReplierAddresses)
  {
    assert Arg(parsed - {"key"}, "sender") == Arg(parsed, "sender");
  }

  /** The sender never decides success: changing `--sender` or
      `SENDER_EMAIL_ADDRESS` leaves the outcome and the API key as they were. */
  lemma SenderNeverCausesFailure(parsed: ParsedArgs, env: Env, sender: ArgValue, envSender: string, parseReplierAddresses: ReplierParser)
    ensures var r1 := ResolveConfig(parsed, env, parseReplierAddresses);
      var r2 := ResolveConfig(parsed["sender" := sender], env["SENDER_EMAIL_ADDRESS" := envSender], parseReplierAddresses);
      r1.Resolved? == r2.Resolved? && (r1.Resolved? ==> r1.config.apiKey == r2.config.apiKey)
  {
    assert Arg(parsed["sender" := sender], "key") == Arg(parsed, "key");
    assert EnvVar(env["SENDER_EMAIL_ADDRESS" := envSender], "RESEND_API_KEY") == EnvVar(env, "RESEND_API_KEY");
    assert ChosenApiKey(parsed["sender" := sender], env["SENDER_EMAIL_ADDRESS" := envSender]) == ChosenApiKey(parsed, env);
    ResolvedKey(parsed, env, parseReplierAddresses);
    ResolvedKey(parsed["sender" := sender], env["SENDER_EMAIL_ADDRESS" := envSender], parseReplierAddresses);
  }

  /** The reply-to list under the array-or-string rule applied to `--reply-to`
      and `REPLY_TO_EMAIL_ADDRESSES`, the rule index.ts uses for the same
      option; src/cli/parse.ts itself is not part of this model. */
  function ArrayOrStringRepliers(parsed: ParsedArgs, env: Env): seq<string> {
    ParseArrayOrStringParam(Arg(parsed, "reply-to"), EnvVar(env, "REPLY_TO_EMAIL_ADDRESSES"), ',')
  }

  /** Resolution once the chosen key is known to be non-blank. */
  lemma ResolvesTo(parsed: ParsedArgs, env: Env, parseReplierAddresses: ReplierParser, key: string)
    requires ChosenApiKey(parsed, env) == Some(key) && Trim(key) != ""
    ensures ResolveConfig(parsed, env, parseReplierAddresses)
      == Resolved(CliConfig(Trim(key), ResolveSender(parsed, env), parseReplierAddresses(parsed, env)))
  {
  }

  /** The resolver's test with neither `--key` nor `RESEND_API_KEY`. */
  lemma NoKeyExample(parsed: ParsedArgs, env: Env)
    requires parsed == map[] && env == map[]
    ensures ResolveConfig(parsed, env, ArrayOrStringRepliers) == Rejected(NoApiKeyError)
  {
    assert ChosenApiKey(parsed, env) == None;
  }

  /** The resolver's test with a whitespace-only `--key` and `RESEND_API_KEY`. */
  lemma BlankKeyExample(parsed: ParsedArgs, env: Env, blank: string)
    requires blank == "   "
    requires parsed == map["key" := Str(blank)] && env == map["RESEND_API_KEY" := blank]
    ensures ResolveConfig(parsed, env, ArrayOrStringRepliers) == Rejected(NoApiKeyError)
  {
    assert ChosenApiKey(parsed, env) == Some(blank);
    assert AllWhitespace(blank);
    assert Trim(blank) == "";
  }

  /** The padded values of the resolver's tests, `"  re_abc  "` and
      `" env@resend.dev "`, trim to what they surround. */
  lemma TrimPadded(pad: string, m: string)
    requires (pad == "  " && m == "re_abc") || (pad == " " && m == "env@resend.dev")
    ensures Trim(pad + m + pad) == m
  {
    assert AllWhitespace(pad);
    TrimOf(pad, m, pad);
  }

  /** The resolver's test with `--key '  re_abc  '`. */
  lemma PaddedKeyExample(parsed: ParsedArgs, env: Env, padded: string, key: string)
    requires key == "re_abc" && padded == "  " + key + "  "
    requires parsed == map["key" := Str(padded)] && env == map[]
    ensures ResolveConfig(parsed, env, ArrayOrStringRepliers) == Resolved(CliConfig(key, "", []))
  {
    TrimPadded("  ", key);
    assert ChosenApiKey(parsed, env) == Some(padded);
    assert ResolveSender(parsed, env) == "";
    assert ArrayOrStringRepliers(parsed, env) == [];
    ResolvesTo(parsed, env, ArrayOrStringRepliers, padded);
  }

  /** The resolver's test preferring `--key re_cli` to `RESEND_API_KEY=re_env`. */
  lemma CliKeyExample(parsed: ParsedArgs, env: Env, key: string)
    requires key == "re_cli"
    requires parsed == map["key" := Str(key)] && env == map["RESEND_API_KEY" := "re_env"]
    ensures ResolveConfig(parsed, env, ArrayOrStringRepliers).Resolved?
    ensures ResolveConfig(parsed, env, ArrayOrStringRepliers).config.apiKey == key
  {
    TrimUnpadded(key);
    assert ChosenApiKey(parsed, env) == Some(key);
    ResolvesTo(parsed, env, ArrayOrStringRepliers, key);
  }

  /** The resolver's test taking `SENDER_EMAIL_ADDRESS=' env@resend.dev '` trimmed. */
  lemma EnvSenderExample(parsed: ParsedArgs, env: Env, key: string, padded: string, sender: string)
    requires key == "re_x" && sender == "env@resend.dev" && padded == " " + sender + " "
    requires parsed == map["key" := Str(key)]
    requires env == map["RESEND_API_KEY" := key, "SENDER_EMAIL_ADDRESS" := padded]
    ensures ResolveConfig(parsed, env, ArrayOrStringRepliers).Resolved?
    ensures ResolveConfig(parsed, env, ArrayOrStringRepliers).config.senderEmailAddress == sender
  {
    TrimUnpadded(key);
    TrimPadded(" ", sender);
    assert ChosenApiKey(parsed, env) == Some(key);
    assert !IsString(Arg(parsed, "sender"));
    assert ResolveSender(parsed, env) == Trim(padded);
    ResolvesTo(parsed, env, ArrayOrStringRepliers, key);
  }

  /** `"r1@x.com,r2@x.com"` splits into its two addresses. */
  lemma SplitTestRepliers(repliers: string, r1: string, r2: string)
    requires r1 == "r1@x.com" && r2 == "r2@x.com" && repliers == r1 + "," + r2
    ensures Split(repliers, ',') == [r1, r2]
  {
    SplitJoin([r1, r2], ',');
    JoinTwo(r1, r2, [',']);
  }

  /** The resolver's test splitting `REPLY_TO_EMAIL_ADDRESSES='r1@x.com,r2@x.com'`. */
  lemma EnvRepliersExample(parsed: ParsedArgs, env: Env, key: string, repliers: string, r1: string, r2: string)
    requires key == "re_x" && r1 == "r1@x.com" && r2 == "r2@x.com" && repliers == r1 + "," + r2
    requires parsed == map["key" := Str(key)]
    requires env == map["RESEND_API_KEY" := key, "REPLY_TO_EMAIL_ADDRESSES" := repliers]
    ensures ResolveConfig(parsed, env, ArrayOrStringRepliers).Resolved?
    ensures ResolveConfig(parsed, env, ArrayOrStringRepliers).config.replierEmailAddresses == [r1, r2]
  {
    TrimUnpadded(key);
    assert ChosenApiKey(parsed, env) == Some(key);
    assert Arg(parsed, "reply-to") == None;
    assert EnvVar(env, "REPLY_TO_EMAIL_ADDRESSES") == Some(repliers);
    SplitTestRepliers(repliers, r1, r2);
    assert ArrayOrStringRepliers(parsed, env) == Split(repliers, ',');
    ResolvesTo(parsed, env, ArrayOrStringRepliers, key);
  }

}
