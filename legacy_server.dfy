/** The original single-file server (index.ts): settings read from argv and
    the environment at start-up, the API-key check, and the send-email tool
    with its conditional schema, its from/reply-to/cc/bcc resolution and the
    assembly of the provider request. */
module LegacyServer {
  import opened Wrappers
  import opened Text
  import opened JsArgs
  import opened Sdk
  import opened ToolSchema

  /** The module-level settings. The arrays are `let` bindings that index.ts
      assigns exactly once while loading, so they are fields of one value. */
  datatype LegacySettings = LegacySettings(
    apiKey: Option<ArgValue>,
    senderEmailAddress: Option<ArgValue>,
    senderName: Option<ArgValue>,
    replierEmailAddresses: seq<string>,
    bccEmailAddresses: seq<string>,
    ccEmailAddresses: seq<string>)

  /** `argv.key || process.env.RESEND_API_KEY` and the other settings. */
  function ReadSettings(argv: ParsedArgs, env: Env): (settings: LegacySettings)
    ensures Truthy(Arg(argv, "key")) ==> settings.apiKey == Arg(argv, "key")
    ensures !Truthy(Arg(argv, "key")) ==> settings.apiKey == FromEnv(EnvVar(env, "RESEND_API_KEY"))
    ensures Truthy(Arg(argv, "sender")) ==> settings.senderEmailAddress == Arg(argv, "sender")
    ensures !Truthy(Arg(argv, "sender")) ==> settings.senderEmailAddress == FromEnv(EnvVar(env, "SENDER_EMAIL_ADDRESS"))
    ensures Truthy(Arg(argv, "sendername")) ==> settings.senderName == Arg(argv, "sendername")
    ensures !Truthy(Arg(argv, "sendername")) ==> settings.senderName == FromEnv(EnvVar(env, "SENDER_NAME"))
  {
    LegacySettings(
      Or(Arg(argv, "key"), FromEnv(EnvVar(env, "RESEND_API_KEY"))),
      Or(Arg(argv, "sender"), FromEnv(EnvVar(env, "SENDER_EMAIL_ADDRESS"))),
      Or(Arg(argv, "sendername"), FromEnv(EnvVar(env, "SENDER_NAME"))),
      ParseArrayOrStringParam(Arg(argv, "reply-to"), EnvVar(env, "REPLY_TO_EMAIL_ADDRESSES"), ','),
      ParseArrayOrStringParam(Arg(argv, "bcc"), EnvVar(env, "BCC_EMAIL_ADDRESSES"), ','),
      ParseArrayOrStringParam(Arg(argv, "cc"), EnvVar(env, "CC_EMAIL_ADDRESSES"), ','))
  }

  const NoApiKeyMessage := "No API key provided. Please set RESEND_API_KEY environment variable or use --key argument"

  /** Start-up: exit with code 1 after printing the message, or serve. */
  datatype Startup = Exit(code: int, message: string) | Serve(settings: LegacySettings)

  function Start(argv: ParsedArgs, env: Env): (s: Startup)
    ensures s.Exit? <==> !Truthy(ReadSettings(argv, env).apiKey)
    ensures s.Exit? ==> s.code == 1 && s.message == NoApiKeyMessage
    ensures s.Serve? ==> s.settings == ReadSettings(argv, env)
  {
    var settings := ReadSettings(argv, env);
    if !Truthy(settings.apiKey) then Exit(1, NoApiKeyMessage) else Serve(settings)
  }

  /** This version does not trim: a whitespace-only key passes the check. */
  lemma BlankKeyStarts(argv: ParsedArgs, env: Env)
    requires Arg(argv, "key") == Some(Str(" "))
    ensures Start(argv, env).Serve? && Start(argv, env).settings.apiKey == Some(Str(" "))
  {
  }

  /** `||` skips every falsy value, so an empty `--key` falls back to the
      environment (the stdio resolver, using `??`, would keep it and fail). */
  lemma EmptyCliKeyFallsBack(argv: ParsedArgs, env: Env)
    requires Arg(argv, "key") == Some(Str(""))
    ensures Start(argv, env).Exit? <==> !Present(EnvVar(env, "RESEND_API_KEY"))
  {
  }

  /** The send-email schema (index.ts:106-129): `from` is required iff the
      default sender is falsy, `replyTo` is offered iff there is no default
      reply-to address. */
  function LegacySendSchema(settings: LegacySettings): (schema: SendSchema)
    ensures schema.from == Required <==> !Truthy(settings.senderEmailAddress)
    ensures schema.replyTo == Optional <==> settings.replierEmailAddresses == []
  {
    ConditionalSchema(Truthy(settings.senderEmailAddress), settings.replierEmailAddresses)
  }

  /** The validated call arguments of send-email. */
  datatype LegacySendArgs = LegacySendArgs(
    from: Option<string>, to: string, subject: string, text: string, html: Option<string>,
    replyTo: Option<seq<string>>, scheduledAt: Option<string>, cc: Option<seq<string>>, bcc: Option<seq<string>>)

  /** Arguments as the schema lets them through: required fields present,
      fields the schema does not offer absent. */
  predicate Conforms(args: LegacySendArgs, schema: SendSchema) {
    && (schema.from == Required ==> args.from.Some?)
    && (schema.from == NotOffered ==> args.from.None?)
    && (schema.replyTo == NotOffered ==> args.replyTo.None?)
  }

  /** `from ?? (senderName ? `${senderName} <${senderEmailAddress}>` : senderEmailAddress)`. */
  function FromEmailAddress(settings: LegacySettings, args: LegacySendArgs): (from: Option<ArgValue>)
    ensures args.from.Some? ==> from == Some(Str(args.from.value))
    ensures args.from.None? && Truthy(settings.senderName) ==>
      from == Some(Str(Render(settings.senderName) + " <" + Render(settings.senderEmailAddress) + ">"))
    ensures args.from.None? && !Truthy(settings.senderName) ==> from == settings.senderEmailAddress
  {
    match args.from
    case Some(f) => Some(Str(f))
    case None =>
      if Truthy(settings.senderName) then
        Some(Str(Render(settings.senderName) + " <" + Render(settings.senderEmailAddress) + ">"))
      else settings.senderEmailAddress
  }

  /** `given ? [...given, ...defaults] : defaults`: call-time addresses first,
      then the configured ones, each in its own order. */
  function CombinedAddresses(given: Option<seq<string>>, defaults: seq<string>): (combined: seq<string>)
    ensures |combined| == |given.GetOr([])| + |defaults|
    ensures forall i :: 0 <= i < |given.GetOr([])| ==> combined[i] == given.GetOr([])[i]
    ensures forall j :: 0 <= j < |defaults| ==> combined[|given.GetOr([])| + j] == defaults[j]
  {
    match given
    case Some(addresses) => addresses + defaults
    case None => defaults
  }

  /** The request handed to the provider. */
  datatype LegacyEmailRequest = LegacyEmailRequest(
    to: string, subject: string, text: string, from: string, replyTo: seq<string>,
    html: Option<string>, scheduledAt: Option<string>, cc: Option<seq<string>>, bcc: Option<seq<string>>)

  /** What the request must be for these settings and arguments: the always
      present fields copied, `html` and `scheduledAt` only when non-empty,
      `cc` and `bcc` only when their combined list is non-empty. */
  predicate IsLegacyRequestFor(settings: LegacySettings, args: LegacySendArgs, q: LegacyEmailRequest) {
    && q.to == args.to && q.subject == args.subject && q.text == args.text
    && FromEmailAddress(settings, args) == Some(Str(q.from))
    && q.replyTo == args.replyTo.GetOr(settings.replierEmailAddresses)
    && (q.html.Some? <==> Present(args.html)) && (q.html.Some? ==> q.html == args.html)
    && (q.scheduledAt.Some? <==> Present(args.scheduledAt)) && (q.scheduledAt.Some? ==> q.scheduledAt == args.scheduledAt)
    && (var cc := CombinedAddresses(args.cc, settings.ccEmailAddresses);
        (q.cc.Some? <==> cc != []) && (q.cc.Some? ==> q.cc.value == cc))
    && (var bcc := CombinedAddresses(args.bcc, settings.bccEmailAddresses);
        (q.bcc.Some? <==> bcc != []) && (q.bcc.Some? ==> q.bcc.value == bcc))
  }

  /** The description above pins the request down completely. */
  lemma LegacyRequestIsDetermined(settings: LegacySettings, args: LegacySendArgs, q1: LegacyEmailRequest, q2: LegacyEmailRequest)
    requires IsLegacyRequestFor(settings, args, q1) && IsLegacyRequestFor(settings, args, q2)
    ensures q1 == q2
  {
  }

  const FromMissing := "from argument must be provided."

  /** The handler's resolution and request assembly (index.ts:134-201): the
      request is built with its required fields and then given each optional
      field in turn. */
  method BuildLegacyRequest(settings: LegacySettings, args: LegacySendArgs) returns (r: Result<LegacyEmailRequest, string>)
    ensures r.Err? <==> !IsString(FromEmailAddress(settings, args))
    ensures r.Err? ==> r.error == FromMissing
    ensures r.Ok? ==> IsLegacyRequestFor(settings, args, r.value)
  {
    var fromAddress := FromEmailAddress(settings, args);
    var replyTo := args.replyTo.GetOr(settings.replierEmailAddresses);
    var combinedBcc := CombinedAddresses(args.bcc, settings.bccEmailAddresses);
    var combinedCc := CombinedAddresses(args.cc, settings.ccEmailAddresses);
    if !IsString(fromAddress) {
      return Err(FromMissing);
    }
    var request := LegacyEmailRequest(args.to, args.subject, args.text, fromAddress.value.s, replyTo, None, None, None, None);
    if Present(args.html) {
      request := request.(html := args.html);
    }
    if Present(args.scheduledAt) {
      request := request.(scheduledAt := args.scheduledAt);
    }
    if |combinedCc| > 0 {
      request := request.(cc := Some(combinedCc));
    }
    if |combinedBcc| > 0 {
      request := request.(bcc := Some(combinedBcc));
    }
    return Ok(request);
  }

  /** The whole send-email call: assemble the request, hand it to the provider
      (`send`), and turn the response into the tool's reply. `sent` is the
      request the provider received, if any. */
  method LegacySendEmail(settings: LegacySettings, args: LegacySendArgs, send: LegacyEmailRequest -> Response<string>)
    returns (reply: Result<string, string>, sent: Option<LegacyEmailRequest>)
    ensures sent.None? <==> !IsString(FromEmailAddress(settings, args))
    ensures sent.None? ==> reply == Err(FromMissing)
    ensures sent.Some? ==> IsLegacyRequestFor(settings, args, sent.value) && reply == SentReply(send(sent.value))
  {
    var request := BuildLegacyRequest(settings, args);
    match request
    case Err(e) =>
      return Err(e), None;
    case Ok(q) =>
      var response := send(q);
      return SentReply(response), Some(q);
  }

  /** A call the schema admits never reaches the defensive `from` check as
      long as the default sender, when set, is a string. */
  lemma ConformingCallHasSender(settings: LegacySettings, args: LegacySendArgs)
    requires Conforms(args, LegacySendSchema(settings))
    requires settings.senderEmailAddress.None? || IsString(settings.senderEmailAddress)
    ensures IsString(FromEmailAddress(settings, args))
  {
  }

  /** With a default sender configured, the schema drops `from`, so the default
      (with the display name, when one is set) is what the request carries. */
  lemma DefaultSenderIsUsed(settings: LegacySettings, args: LegacySendArgs)
    requires Truthy(settings.senderEmailAddress) && Conforms(args, LegacySendSchema(settings))
    ensures args.from.None?
    ensures !Truthy(settings.senderName) ==> FromEmailAddress(settings, args) == settings.senderEmailAddress
    ensures Truthy(settings.senderName) ==>
      FromEmailAddress(settings, args) == Some(Str(Render(settings.senderName) + " <" + Render(settings.senderEmailAddress) + ">"))
  {
  }

  /** The defensive check is reachable: a default sender that is truthy but not
      a string (minimist gives a number for `--sender 42`, `true` for a bare
      `--sender` and an array for a repeated one) makes the schema drop `from`,
      and without a sender name the from value is then not a string. */
  lemma NonStringSenderFailsConformingCall(settings: LegacySettings, args: LegacySendArgs)
    requires Truthy(settings.senderEmailAddress) && !IsString(settings.senderEmailAddress)
    requires !Truthy(settings.senderName) && Conforms(args, LegacySendSchema(settings))
    ensures args.from.None? && !IsString(FromEmailAddress(settings, args))
  {
  }

  /** `--sender 42` with no sender name: every call the schema admits fails
      with the defensive error. */
  lemma NumericSenderExample(argv: ParsedArgs, env: Env, args: LegacySendArgs)
    requires argv == map["sender" := Num(42)] && "SENDER_NAME" !in env
    requires Conforms(args, LegacySendSchema(ReadSettings(argv, env)))
    ensures args.from.None? && !IsString(FromEmailAddress(ReadSettings(argv, env), args))
  {
    var settings := ReadSettings(argv, env);
    assert settings.senderEmailAddress == Some(Num(42));
    assert settings.senderName == None;
    NonStringSenderFailsConformingCall(settings, args);
  }
}
