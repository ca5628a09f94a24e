/** The values the command-line parser (minimist) produces for options, the
    process environment, and the JavaScript notions of "truthy" and of a
    value's rendering inside a template literal. */
module JsArgs {
  import opened Wrappers
  import opened Text

  /** One parsed option: a string, a boolean flag, a number, or the array a
      repeated option gives. */
  datatype ArgValue = Str(s: string) | Bool(b: bool) | Num(n: int) | List(items: seq<string>)

  /** Parsed argv: an option that was not given is not a key. */
  type ParsedArgs = map<string, ArgValue>

  /** `process.env`: a variable that is not set is not a key. */
  type Env = map<string, string>

  function Arg(argv: ParsedArgs, name: string): Option<ArgValue> {
    if name in argv then Some(argv[name]) else None
  }

  function EnvVar(env: Env, name: string): Option<string> {
    if name in env then Some(env[name]) else None
  }

  /** An environment value seen as an option value (`undefined` stays absent). */
  function FromEnv(v: Option<string>): Option<ArgValue> {
    match v
    case None => None
    case Some(s) => Some(Str(s))
  }

  /** `typeof v === 'string'`. */
  predicate IsString(v: Option<ArgValue>) {
    v.Some? && v.value.Str?
  }

  /** JavaScript truthiness: `undefined`, `''`, `false` and `0` are falsy; every
      array is truthy, even an empty one. */
  predicate Truthy(v: Option<ArgValue>) {
    match v
    case None => false
    case Some(Str(s)) => s != ""
    case Some(Bool(b)) => b
    case Some(Num(n)) => n != 0
    case Some(List(_)) => true
  }

  /** Truthiness of an optional string. */
  predicate Present(v: Option<string>) {
    v.Some? && v.value != ""
  }

  /** `a || b`. */
  function Or(a: Option<ArgValue>, b: Option<ArgValue>): (r: Option<ArgValue>)
    ensures Truthy(a) ==> r == a
    ensures !Truthy(a) ==> r == b
  {
    if Truthy(a) then a else b
  }

  /** `${v}`: a value rendered inside a template literal. */
  function Render(v: Option<ArgValue>): string {
    match v
    case None => "undefined"
    case Some(Str(s)) => s
    case Some(Bool(b)) => if b then "true" else "false"
    case Some(Num(n)) => IntToString(n)
    case Some(List(items)) => Join(items, ",")
  }

  /** `parseArrayOrStringParam`: an array option as given, a string option as
      a one-element list, and otherwise the environment value split on the
      delimiter (no trimming), or `[]` when that value is unset or empty. */
  function ParseArrayOrStringParam(cliParam: Option<ArgValue>, envParam: Option<string>, delimiter: char): (r: seq<string>)
    ensures cliParam.Some? && cliParam.value.List? ==> r == cliParam.value.items
    ensures cliParam.Some? && cliParam.value.Str? ==> r == [cliParam.value.s]
    ensures !IsString(cliParam) && !(cliParam.Some? && cliParam.value.List?) && !Present(envParam) ==> r == []
    ensures !IsString(cliParam) && !(cliParam.Some? && cliParam.value.List?) && Present(envParam) ==>
      |r| >= 1 && Join(r, [delimiter]) == envParam.value && forall i :: 0 <= i < |r| ==> delimiter !in r[i]
  {
    match cliParam
    case Some(List(items)) => items
    case Some(Str(s)) => [s]
    case _ =>
      if Present(envParam) then
        JoinSplit(envParam.value, delimiter);
        Split(envParam.value, delimiter)
      else []
  }

  /** A string or array option makes the environment value irrelevant. */
  lemma CliParamShadowsEnv(cliParam: Option<ArgValue>, env1: Option<string>, env2: Option<string>, delimiter: char)
    requires IsString(cliParam) || (cliParam.Some? && cliParam.value.List?)
    ensures ParseArrayOrStringParam(cliParam, env1, delimiter) == ParseArrayOrStringParam(cliParam, env2, delimiter)
  {
  }
}
