/** The compose-email tool (tools/composeEmailUi.ts): HTML escaping, which
    fields the composer form shows and with which prefilled values, and the
    tool's two-part result. The page's markup, style and script are not part
    of this model; the form is modelled as its list of fields. */
module ComposeUi {
  import opened Wrappers
  import opened Text
  import opened JsArgs
  import opened ToolSchema
  import opened EmailTools

  /** `s.replace(/c/g, by)` for a one-character pattern. */
  function ReplaceAll(s: string, c: char, entity: string): string {
    if s == [] then []
    else (if s[0] == c then entity else [s[0]]) + ReplaceAll(s[1..], c, entity)
  }

  /** An entity without the pattern character leaves none behind, and a text
      without it is left as it is. */
  lemma {:induction false} ReplaceAllRemoves(s: string, c: char, entity: string)
    ensures c !in entity ==> c !in ReplaceAll(s, c, entity)
    ensures c !in s ==> ReplaceAll(s, c, entity) == s
  {
    if s != [] {
      ReplaceAllRemoves(s[1..], c, entity);
      assert s == [s[0]] + s[1..];
    }
  }

  /** One step of the replacement: the first character, then the rest. */
  lemma {:induction false} ReplaceAllCons(x: char, s: string, c: char, entity: string)
    ensures ReplaceAll([x] + s, c, entity) == (if x == c then entity else [x]) + ReplaceAll(s, c, entity)
  {
    assert ([x] + s)[0] == x && ([x] + s)[1..] == s;
  }

  lemma {:induction false} ReplaceAllAppend(a: string, b: string, c: char, entity: string)
    ensures ReplaceAll(a + b, c, entity) == ReplaceAll(a, c, entity) + ReplaceAll(b, c, entity)
  {
    if a != [] {
      var x, t := a[0], a[1..];
      assert a == [x] + t && a + b == [x] + (t + b);
      ReplaceAllCons(x, t + b, c, entity);
      ReplaceAllCons(x, t, c, entity);
      ReplaceAllAppend(t, b, c, entity);
    } else {
      assert a + b == b;
    }
  }

  /** `escapeHtml`: five global replacements, `&` first. */
  function EscapeHtml(s: string): string {
    ReplaceAll(ReplaceAll(ReplaceAll(ReplaceAll(ReplaceAll(s, '&', "&amp;"), '<', "&lt;"), '>', "&gt;"), '"', "&quot;"), '\'', "&#39;")
  }

  /** The entity (or the character itself) each character escapes to. */
  function EscapeChar(c: char): string {
    if c == '&' then "&amp;"
    else if c == '<' then "&lt;"
    else if c == '>' then "&gt;"
    else if c == '"' then "&quot;"
    else if c == '\'' then "&#39;"
    else [c]
  }

  /** Escaping character by character: the reference definition. */
  function EscapeEach(s: string): string {
    if s == [] then [] else EscapeChar(s[0]) + EscapeEach(s[1..])
  }

  /** The characters that never survive escaping. */
  predicate IsSpecial(c: char) {
    c == '&' || c == '<' || c == '>' || c == '"' || c == '\''
  }

  /** A string with no markup-significant `<`, `>`, `"` or `'`. */
  predicate MarkupSafe(s: string) {
    '<' !in s && '>' !in s && '"' !in s && '\'' !in s
  }

  /** Escaping distributes over concatenation. */
  lemma {:induction false} EscapeHtmlAppend(a: string, b: string)
    ensures EscapeHtml(a + b) == EscapeHtml(a) + EscapeHtml(b)
  {
    var a1, b1 := ReplaceAll(a, '&', "&amp;"), ReplaceAll(b, '&', "&amp;");
    ReplaceAllAppend(a, b, '&', "&amp;");
    var a2, b2 := ReplaceAll(a1, '<', "&lt;"), ReplaceAll(b1, '<', "&lt;");
    ReplaceAllAppend(a1, b1, '<', "&lt;");
    var a3, b3 := ReplaceAll(a2, '>', "&gt;"), ReplaceAll(b2, '>', "&gt;");
    ReplaceAllAppend(a2, b2, '>', "&gt;");
    var a4, b4 := ReplaceAll(a3, '"', "&quot;"), ReplaceAll(b3, '"', "&quot;");
    ReplaceAllAppend(a3, b3, '"', "&quot;");
    ReplaceAllAppend(a4, b4, '\'', "&#39;");
  }

  lemma {:induction false} ReplaceOne(x: char, c: char, entity: string)
    ensures ReplaceAll([x], c, entity) == (if x == c then entity else [x])
  {
    assert [x][1..] == [];
  }

  /** The steps of the chain after the first leave an entity alone. */
  lemma {:induction false} LaterStepsKeep(t: string)
    requires '<' !in t && '>' !in t && '"' !in t && '\'' !in t
    ensures ReplaceAll(ReplaceAll(ReplaceAll(ReplaceAll(t, '<', "&lt;"), '>', "&gt;"), '"', "&quot;"), '\'', "&#39;") == t
  {
    ReplaceAllRemoves(t, '<', "&lt;");
    ReplaceAllRemoves(t, '>', "&gt;");
    ReplaceAllRemoves(t, '"', "&quot;");
    ReplaceAllRemoves(t, '\'', "&#39;");
  }

  lemma {:induction false} EscapeAmpersand(c: char)
    requires c == '&'
    ensures EscapeHtml([c]) == "&amp;"
  {
    ReplaceOne(c, '&', "&amp;");
    LaterStepsKeep("&amp;");
  }

  lemma {:induction false} EscapeLess(c: char)
    requires c == '<'
    ensures EscapeHtml([c]) == "&lt;"
  {
    ReplaceOne(c, '&', "&amp;");
    ReplaceOne(c, '<', "&lt;");
    ReplaceAllRemoves("&lt;", '>', "&gt;");
    ReplaceAllRemoves("&lt;", '"', "&quot;");
    ReplaceAllRemoves("&lt;", '\'', "&#39;");
  }

  lemma {:induction false} EscapeGreater(c: char)
    requires c == '>'
    ensures EscapeHtml([c]) == "&gt;"
  {
    ReplaceOne(c, '&', "&amp;");
    ReplaceOne(c, '<', "&lt;");
    ReplaceOne(c, '>', "&gt;");
    ReplaceAllRemoves("&gt;", '"', "&quot;");
    ReplaceAllRemoves("&gt;", '\'', "&#39;");
  }

  lemma {:induction false} EscapeQuote(c: char)
    requires c == '"'
    ensures EscapeHtml([c]) == "&quot;"
  {
    ReplaceOne(c, '&', "&amp;");
    ReplaceOne(c, '<', "&lt;");
    ReplaceOne(c, '>', "&gt;");
    ReplaceOne(c, '"', "&quot;");
    ReplaceAllRemoves("&quot;", '\'', "&#39;");
  }

  lemma {:induction false} EscapeApostrophe(c: char)
    requires c == '\''
    ensures EscapeHtml([c]) == "&#39;"
  {
    ReplaceOne(c, '&', "&amp;");
    ReplaceOne(c, '<', "&lt;");
    ReplaceOne(c, '>', "&gt;");
    ReplaceOne(c, '"', "&quot;");
    ReplaceOne(c, '\'', "&#39;");
  }

  lemma {:induction false} EscapeOrdinary(c: char)
    requires !IsSpecial(c)
    ensures EscapeHtml([c]) == [c]
  {
    ReplaceOne(c, '&', "&amp;");
    LaterStepsKeep([c]);
  }

  /** On one character the replacement chain yields that character's entity:
      an entity a later step introduces is not escaped again. */
  lemma {:induction false} EscapeSingle(c: char)
    ensures EscapeHtml([c]) == EscapeChar(c)
  {
    if c == '&' {
      EscapeAmpersand(c);
    } else if c == '<' {
      EscapeLess(c);
    } else if c == '>' {
      EscapeGreater(c);
    } else if c == '"' {
      EscapeQuote(c);
    } else if c == '\'' {
      EscapeApostrophe(c);
    } else {
      EscapeOrdinary(c);
    }
  }

  /** `escapeHtml` acts character by character. */
  lemma {:induction false} EscapeHtmlIsPerChar(s: string)
    ensures EscapeHtml(s) == EscapeEach(s)
  {
    if s != [] {
      assert s == [s[0]] + s[1..];
      EscapeHtmlAppend([s[0]], s[1..]);
      EscapeSingle(s[0]);
      EscapeHtmlIsPerChar(s[1..]);
    }
  }

  lemma {:induction false} EscapeEachIsSafe(s: string)
    ensures MarkupSafe(EscapeEach(s))
  {
    if s != [] {
      EscapeEachIsSafe(s[1..]);
    }
  }

  /** No `<`, `>`, `"` or `'` survives escaping. */
  lemma {:induction false} EscapeHtmlIsSafe(s: string)
    ensures MarkupSafe(EscapeHtml(s))
  {
    EscapeHtmlIsPerChar(s);
    EscapeEachIsSafe(s);
  }

  /** A string free of the five special characters is left as it is. */
  lemma {:induction false} EscapeHtmlKeepsPlainText(s: string)
    requires forall k :: 0 <= k < |s| ==> !IsSpecial(s[k])
    ensures EscapeHtml(s) == s
  {
    assert '&' !in s && '<' !in s && '>' !in s && '"' !in s && '\'' !in s;
    ReplaceAllRemoves(s, '&', "&amp;");
    LaterStepsKeep(s);
  }

  /** Decoding the five entities: the inverse of escaping. */
  function Unescape(t: string): string
    decreases |t|
  {
    if t == [] then []
    else if t[0] != '&' then [t[0]] + Unescape(t[1..])
    else if |t| >= 5 && t[..5] == "&amp;" then "&" + Unescape(t[5..])
    else if |t| >= 4 && t[..4] == "&lt;" then "<" + Unescape(t[4..])
    else if |t| >= 4 && t[..4] == "&gt;" then ">" + Unescape(t[4..])
    else if |t| >= 6 && t[..6] == "&quot;" then "\"" + Unescape(t[6..])
    else if |t| >= 5 && t[..5] == "&#39;" then "'" + Unescape(t[5..])
    else [t[0]] + Unescape(t[1..])
  }

  /** Each entity decodes to the character it stands for. */
  lemma {:induction false} UnescapeEntity(c: char, rest: string)
    requires IsSpecial(c)
    ensures Unescape(EscapeChar(c) + rest) == [c] + Unescape(rest)
  {
    var t := EscapeChar(c) + rest;
    if c == '&' {
      assert t[..5] == "&amp;" && t[5..] == rest;
    } else if c == '<' {
      assert t[1] == 'l';
      assert t[..4] == "&lt;" && t[4..] == rest;
    } else if c == '>' {
      assert t[1] == 'g';
      assert t[..4] == "&gt;" && t[4..] == rest;
    } else if c == '"' {
      assert t[1] == 'q';
      assert t[..6] == "&quot;" && t[6..] == rest;
    } else {
      assert t[1] == '#';
      assert t[..5] == "&#39;" && t[5..] == rest;
    }
  }

  lemma {:induction false} UnescapeOrdinary(c: char, rest: string)
    requires !IsSpecial(c)
    ensures Unescape([c] + rest) == [c] + Unescape(rest)
  {
    assert ([c] + rest)[1..] == rest;
  }

  lemma {:induction false} UnescapeEscapeEach(s: string)
    ensures Unescape(EscapeEach(s)) == s
  {
    if s != [] {
      var c, rest := s[0], EscapeEach(s[1..]);
      UnescapeEscapeEach(s[1..]);
      if IsSpecial(c) {
        UnescapeEntity(c, rest);
      } else {
        UnescapeOrdinary(c, rest);
      }
      assert s == [c] + s[1..];
    }
  }

  /** Escaping loses nothing: every `&` becomes exactly `&amp;` and every
      other special character its own entity, so decoding gives the input back. */
  lemma {:induction false} UnescapeEscapeHtml(s: string)
    ensures Unescape(EscapeHtml(s)) == s
  {
    EscapeHtmlIsPerChar(s);
    UnescapeEscapeEach(s);
  }

  /** What `buildComposerHtml` receives. */
  datatype Prefill = Prefill(
    to: string, subject: string, text: string, cc: string, bcc: string, from: string, replyTo: string,
    showFrom: bool, showReplyTo: bool)

  /** The composer's inputs. */
  datatype Control = ToInput | FromInput | SubjectInput | TextInput | CcInput | BccInput | ReplyToInput

  /** One input of the composer, with the value written into the page. */
  datatype FormField = FormField(control: Control, value: string)

  /** The prefill value meant for an input. */
  function Raw(p: Prefill, c: Control): string {
    match c
    case ToInput => p.to
    case FromInput => p.from
    case SubjectInput => p.subject
    case TextInput => p.text
    case CcInput => p.cc
    case BccInput => p.bcc
    case ReplyToInput => p.replyTo
  }

  /** Whether the page has an input. */
  predicate Shown(p: Prefill, c: Control) {
    match c
    case FromInput => p.showFrom
    case ReplyToInput => p.showReplyTo
    case _ => true
  }

  /** An input carrying its escaped prefill value. */
  function Field(p: Prefill, c: Control): FormField {
    FormField(c, EscapeHtml(Raw(p, c)))
  }

  /** The inputs on the page in page order: To, From (only when
      `showFrom`), Subject, Message, CC, BCC, and Reply-To (only when
      `showReplyTo`). */
  function ShownControls(p: Prefill): (cs: seq<Control>)
    ensures forall c :: c in cs <==> Shown(p, c)
    ensures forall i, j :: 0 <= i < j < |cs| ==> cs[i] != cs[j]
  {
    [ToInput] + (if p.showFrom then [FromInput] else []) + [SubjectInput, TextInput, CcInput, BccInput]
      + (if p.showReplyTo then [ReplyToInput] else [])
  }

  /** The form's fields: each shown input with its value passed through
      `escapeHtml`. */
  function ComposerFields(p: Prefill): (fs: seq<FormField>)
    ensures |fs| == |ShownControls(p)|
    ensures forall i :: 0 <= i < |fs| ==> fs[i] == Field(p, ShownControls(p)[i])
  {
    var cs := ShownControls(p);
    seq(|cs|, i requires 0 <= i < |cs| => Field(p, cs[i]))
  }

  /** An input is on the page exactly when it is shown, and then carries its
      escaped prefill value. */
  lemma {:induction false} FieldsAreShownInputs(p: Prefill, f: FormField)
    ensures f in ComposerFields(p) <==> Shown(p, f.control) && f == Field(p, f.control)
  {
    if Shown(p, f.control) && f == Field(p, f.control) {
      var i :| 0 <= i < |ShownControls(p)| && ShownControls(p)[i] == f.control;
      assert ComposerFields(p)[i] == f;
    }
  }

  /** Every value on the page is markup-safe and decodes to its prefill value. */
  lemma {:induction false} FieldValuesAreEscaped(p: Prefill, f: FormField)
    requires f in ComposerFields(p)
    ensures MarkupSafe(f.value) && Unescape(f.value) == Raw(p, f.control)
  {
    FieldsAreShownInputs(p, f);
    EscapeHtmlIsSafe(Raw(p, f.control));
    UnescapeEscapeHtml(Raw(p, f.control));
  }

  /** `showFrom = !senderEmailAddress`: no sender configured, or an empty one. */
  function ShowFrom(defaults: ToolDefaults): (show: bool)
    ensures show <==> defaults.senderEmailAddress == None || defaults.senderEmailAddress == Some("")
  {
    !Present(defaults.senderEmailAddress)
  }

  /** `showReplyTo = replierEmailAddresses.length === 0`. */
  function ShowReplyTo(defaults: ToolDefaults): (show: bool)
    ensures show <==> defaults.replierEmailAddresses == []
  {
    |defaults.replierEmailAddresses| == 0
  }

  /** The validated arguments of compose_email. */
  datatype ComposeArgs = ComposeArgs(
    to: Option<seq<string>>, subject: Option<string>, text: Option<string>, cc: Option<seq<string>>, bcc: Option<seq<string>>)

  /** The handler's prefill: missing arguments default to empty, lists are
      joined with ", ", `from` is always empty and `replyTo` lists the
      configured reply-to addresses. */
  function ComposePrefill(defaults: ToolDefaults, args: ComposeArgs): (p: Prefill)
    ensures p.to == Join(args.to.GetOr([]), ", ")
    ensures p.subject == args.subject.GetOr("") && p.text == args.text.GetOr("")
    ensures p.cc == Join(args.cc.GetOr([]), ", ") && p.bcc == Join(args.bcc.GetOr([]), ", ")
    ensures p.from == "" && p.replyTo == Join(defaults.replierEmailAddresses, ", ")
    ensures p.showFrom == ShowFrom(defaults) && p.showReplyTo == ShowReplyTo(defaults)
  {
    Prefill(
      Join(args.to.GetOr([]), ", "), args.subject.GetOr(""), args.text.GetOr(""),
      Join(args.cc.GetOr([]), ", "), Join(args.bcc.GetOr([]), ", "),
      "", Join(defaults.replierEmailAddresses, ", "),
      ShowFrom(defaults), ShowReplyTo(defaults))
  }

  /** An address that survives being listed with ", ": non-empty, without a
      comma and not padded with whitespace. */
  predicate Listable(address: string) {
    address != [] && ',' !in address && !IsWhitespace(address[0]) && !IsWhitespace(address[|address| - 1])
  }

  /** The addresses a comma-separated list names: its comma-separated pieces,
      trimmed. This is a reference reader for the `", "` join of the prefill,
      against which that join is shown to lose nothing; the page's own script
      reads the inputs with `parseEmails`, which splits on runs of commas and
      whitespace and drops empty pieces, and is not modelled. */
  function CommaList(s: string): (addresses: seq<string>)
    ensures |addresses| == |Split(s, ',')|
    ensures forall i :: 0 <= i < |addresses| ==> addresses[i] == Trim(Split(s, ',')[i])
  {
    var pieces := Split(s, ',');
    seq(|pieces|, i requires 0 <= i < |pieces| => Trim(pieces[i]))
  }

  function SpaceEach(parts: seq<string>): (r: seq<string>)
    ensures |r| == |parts| && forall i :: 0 <= i < |r| ==> r[i] == " " + parts[i]
  {
    seq(|parts|, i requires 0 <= i < |parts| => " " + parts[i])
  }

  lemma {:induction false} SpacedJoin(parts: seq<string>)
    requires |parts| >= 1
    ensures " " + Join(parts, ", ") == Join(SpaceEach(parts), ",")
  {
    if |parts| >= 2 {
      SpacedJoin(parts[1..]);
      assert SpaceEach(parts)[1..] == SpaceEach(parts[1..]);
      assert " " + (parts[0] + ", " + Join(parts[1..], ", ")) == (" " + parts[0]) + "," + (" " + Join(parts[1..], ", "));
    }
  }

  lemma {:induction false} CommaJoin(parts: seq<string>)
    requires |parts| >= 1
    ensures Join(parts, ", ") == Join([parts[0]] + SpaceEach(parts[1..]), ",")
  {
    var spaced := [parts[0]] + SpaceEach(parts[1..]);
    if |parts| >= 2 {
      SpacedJoin(parts[1..]);
      assert spaced[1..] == SpaceEach(parts[1..]);
      assert parts[0] + ", " + Join(parts[1..], ", ") == parts[0] + "," + (" " + Join(parts[1..], ", "));
    }
  }

  lemma {:induction false} SpacedAvoidComma(addresses: seq<string>)
    requires |addresses| >= 1
    requires forall i :: 0 <= i < |addresses| ==> Listable(addresses[i])
    ensures forall i :: 0 <= i < |addresses| ==> ',' !in ([addresses[0]] + SpaceEach(addresses[1..]))[i]
  {
    var spaced := [addresses[0]] + SpaceEach(addresses[1..]);
    forall i | 0 <= i < |spaced|
      ensures ',' !in spaced[i]
    {
      if i > 0 {
        assert spaced[i] == " " + addresses[i];
      }
    }
  }

  lemma {:induction false} SpacedTrim(addresses: seq<string>)
    requires |addresses| >= 1
    requires forall i :: 0 <= i < |addresses| ==> Listable(addresses[i])
    ensures forall i :: 0 <= i < |addresses| ==> Trim(([addresses[0]] + SpaceEach(addresses[1..]))[i]) == addresses[i]
  {
    var spaced := [addresses[0]] + SpaceEach(addresses[1..]);
    forall i | 0 <= i < |addresses|
      ensures Trim(spaced[i]) == addresses[i]
    {
      if i == 0 {
        TrimUnpadded(addresses[0]);
      } else {
        assert spaced[i] == " " + addresses[i] + "";
        TrimOf(" ", addresses[i], "");
      }
    }
  }

  /** Listing addresses with ", " loses nothing: the comma-separated pieces
      of the joined text, trimmed, are the addresses again. */
  lemma {:induction false} CommaListJoin(addresses: seq<string>)
    requires |addresses| >= 1
    requires forall i :: 0 <= i < |addresses| ==> Listable(addresses[i])
    ensures CommaList(Join(addresses, ", ")) == addresses
  {
    var spaced := [addresses[0]] + SpaceEach(addresses[1..]);
    CommaJoin(addresses);
    SpacedAvoidComma(addresses);
    SplitJoin(spaced, ',');
    SpacedTrim(addresses);
    var r := CommaList(Join(addresses, ", "));
    assert |r| == |addresses|;
    assert forall i :: 0 <= i < |r| ==> r[i] == addresses[i];
  }

  /** Whether a form has an input. */
  predicate HasInput(fs: seq<FormField>, c: Control) {
    exists i :: 0 <= i < |fs| && fs[i].control == c
  }

  /** The composer offers From and Reply-To exactly when the send-email
      schema asks for them: From when a sender is required, Reply-To when it
      is an optional argument. */
  lemma {:induction false} FormAsksWhatSchemaAsks(defaults: ToolDefaults, args: ComposeArgs)
    ensures HasInput(ComposerFields(ComposePrefill(defaults, args)), FromInput) <==> EmailSendSchema(defaults).from == Required
    ensures HasInput(ComposerFields(ComposePrefill(defaults, args)), ReplyToInput) <==> EmailSendSchema(defaults).replyTo == Optional
  {
    var p := ComposePrefill(defaults, args);
    var fs := ComposerFields(p);
    FieldsAreShownInputs(p, Field(p, FromInput));
    FieldsAreShownInputs(p, Field(p, ReplyToInput));
    if HasInput(fs, FromInput) {
      var i :| 0 <= i < |fs| && fs[i].control == FromInput;
      FieldsAreShownInputs(p, fs[i]);
    }
    if HasInput(fs, ReplyToInput) {
      var i :| 0 <= i < |fs| && fs[i].control == ReplyToInput;
      FieldsAreShownInputs(p, fs[i]);
    }
  }

  /** The page served as the composer template: the prefill of a call with
      no arguments. */
  function DefaultPrefill(defaults: ToolDefaults): (p: Prefill)
    ensures p.to == "" && p.subject == "" && p.text == "" && p.cc == "" && p.bcc == "" && p.from == ""
    ensures p == ComposePrefill(defaults, ComposeArgs(None, None, None, None, None))
  {
    Prefill("", "", "", "", "", "", Join(defaults.replierEmailAddresses, ", "), ShowFrom(defaults), ShowReplyTo(defaults))
  }

  /** The Reply-To input only appears when there are no configured reply-to
      addresses, so it is then always empty; the From input is always empty. */
  lemma {:induction false} ShownDefaultsAreEmpty(defaults: ToolDefaults, args: ComposeArgs, v: string)
    ensures FormField(ReplyToInput, v) in ComposerFields(ComposePrefill(defaults, args)) ==> v == ""
    ensures FormField(FromInput, v) in ComposerFields(ComposePrefill(defaults, args)) ==> v == ""
  {
    var p := ComposePrefill(defaults, args);
    FieldsAreShownInputs(p, FormField(ReplyToInput, v));
    FieldsAreShownInputs(p, FormField(FromInput, v));
    assert EscapeHtml("") == "";
  }

  /** One item of the tool result. */
  datatype ComposeBlock = TextBlock(text: string) | UiResource(form: seq<FormField>)

  const FillInText := "Fill in any missing fields below and click **Send email** to send."

  /** The compose_email result: the instruction, then the composer. */
  function ComposeEmail(defaults: ToolDefaults, args: ComposeArgs): (blocks: seq<ComposeBlock>)
    ensures |blocks| == 2
    ensures blocks[0] == TextBlock(FillInText)
    ensures blocks[1] == UiResource(ComposerFields(ComposePrefill(defaults, args)))
  {
    [TextBlock(FillInText), UiResource(ComposerFields(ComposePrefill(defaults, args)))]
  }
}
