/** The current email tools (tools/emails.ts): send-email with its
    conditional schema, request assembly and attachment resolution;
    list-emails with pagination and its summary text; get-email with its
    details text. */
module EmailTools {
  import opened Wrappers
  import opened Text
  import opened JsArgs
  import opened Sdk
  import opened ToolSchema
  import opened Pagination

  /** The contents of a `Buffer`. */
  type Bytes = seq<bv8>

  /** The defaults the servers hand to the email tools. */
  datatype ToolDefaults = ToolDefaults(senderEmailAddress: Option<string>, replierEmailAddresses: seq<string>)

  datatype Tag = Tag(name: string, value: string)

  /** One validated entry of the `attachments` argument. */
  datatype AttachmentArg = AttachmentArg(
    filename: string, filePath: Option<string>, url: Option<string>, content: Option<string>,
    contentType: Option<string>, contentId: Option<string>)

  /** One provider attachment; every field may be missing. */
  datatype Attachment = Attachment(
    filename: Option<string>, content: Option<Bytes>, path: Option<string>,
    contentType: Option<string>, contentId: Option<string>)

  /** `fs.readFile`: the file's bytes, or the message it rejects with. */
  type FileReader = string -> Result<Bytes, string>

  /** `Buffer.from(s, 'base64')`. */
  type Base64Decoder = string -> Bytes

  /** The validated arguments of send-email. */
  datatype SendArgs = SendArgs(
    from: Option<string>, to: seq<string>, subject: string, text: string, html: Option<string>,
    replyTo: Option<seq<string>>, scheduledAt: Option<string>, cc: Option<seq<string>>, bcc: Option<seq<string>>,
    attachments: Option<seq<AttachmentArg>>, tags: Option<seq<Tag>>, topicId: Option<string>)

  /** The request handed to `resend.emails.send`. */
  datatype EmailRequest = EmailRequest(
    to: seq<string>, subject: string, text: string, from: string, replyTo: seq<string>,
    html: Option<string>, scheduledAt: Option<string>, cc: Option<seq<string>>, bcc: Option<seq<string>>,
    attachments: Option<seq<Attachment>>, tags: Option<seq<Tag>>, topicId: Option<string>)

  /** The send-email schema (tools/emails.ts:125-145). */
  function EmailSendSchema(defaults: ToolDefaults): (schema: SendSchema)
    ensures schema.from == Required <==> !Present(defaults.senderEmailAddress)
    ensures schema.replyTo == Optional <==> defaults.replierEmailAddresses == []
  {
    ConditionalSchema(Present(defaults.senderEmailAddress), defaults.replierEmailAddresses)
  }

  /** Arguments as the schema lets them through. */
  predicate Conforms(args: SendArgs, schema: SendSchema) {
    && (schema.from == Required ==> args.from.Some?)
    && (schema.from == NotOffered ==> args.from.None?)
    && (schema.replyTo == NotOffered ==> args.replyTo.None?)
  }

  /** `from ?? senderEmailAddress` is a string. */
  predicate HasSender(defaults: ToolDefaults, args: SendArgs) {
    args.from.OrElse(defaults.senderEmailAddress).Some?
  }

  /** A call the schema admits always has a sender. */
  lemma ConformingCallHasSender(defaults: ToolDefaults, args: SendArgs)
    requires Conforms(args, EmailSendSchema(defaults))
    ensures HasSender(defaults, args)
  {
  }

  /** `if (x) request.f = x`: the field is set exactly when the value is a
      non-empty string, and then to that value. */
  predicate CopiedIfPresent(given: Option<string>, copied: Option<string>) {
    (copied.Some? <==> Present(given)) && (copied.Some? ==> copied == given)
  }

  /** The attachment read from `filePath` fails. */
  predicate ReadFails(att: AttachmentArg, readFile: FileReader) {
    Present(att.filePath) && readFile(att.filePath.value).Err?
  }

  /** The provider attachment for `att`: its content from the first truthy of
      filePath (the file's bytes), url (sent as `path`) and content (decoded
      from base64), and the names copied when truthy. */
  predicate IsAttachmentFor(att: AttachmentArg, readFile: FileReader, decode: Base64Decoder, a: Attachment) {
    && CopiedIfPresent(Some(att.filename), a.filename)
    && CopiedIfPresent(att.contentType, a.contentType)
    && CopiedIfPresent(att.contentId, a.contentId)
    && (Present(att.filePath) ==>
          readFile(att.filePath.value).Ok? && a.content == Some(readFile(att.filePath.value).value) && a.path.None?)
    && (!Present(att.filePath) && Present(att.url) ==> a.path == att.url && a.content.None?)
    && (!Present(att.filePath) && !Present(att.url) && Present(att.content) ==>
          a.content == Some(decode(att.content.value)) && a.path.None?)
    && (!Present(att.filePath) && !Present(att.url) && !Present(att.content) ==> a.content.None? && a.path.None?)
  }

  /** An attachment never has both a content and a path, and has neither
      exactly when none of filePath, url and content was given. */
  lemma AttachmentHasOneSource(att: AttachmentArg, readFile: FileReader, decode: Base64Decoder, a: Attachment)
    requires IsAttachmentFor(att, readFile, decode, a)
    ensures !(a.content.Some? && a.path.Some?)
    ensures a.content.None? && a.path.None? <==> !Present(att.filePath) && !Present(att.url) && !Present(att.content)
  {
  }

  /** The per-attachment step of tools/emails.ts:231-258: an empty record that
      receives each field in turn. */
  method ResolveAttachment(att: AttachmentArg, readFile: FileReader, decode: Base64Decoder) returns (r: Result<Attachment, string>)
    ensures r.Err? <==> ReadFails(att, readFile)
    ensures r.Err? ==> r.error == readFile(att.filePath.value).error
    ensures r.Ok? ==> IsAttachmentFor(att, readFile, decode, r.value)
  {
    var result := Attachment(None, None, None, None, None);
    if att.filename != "" {
      result := result.(filename := Some(att.filename));
    }
    if Present(att.contentType) {
      result := result.(contentType := att.contentType);
    }
    if Present(att.contentId) {
      result := result.(contentId := att.contentId);
    }
    if Present(att.filePath) {
      var fileBuffer := readFile(att.filePath.value);
      if fileBuffer.Err? {
        return Err(fileBuffer.error);
      }
      result := result.(content := Some(fileBuffer.value));
    } else if Present(att.url) {
      result := result.(path := att.url);
    } else if Present(att.content) {
      result := result.(content := Some(decode(att.content.value)));
    }
    return Ok(result);
  }

  /** Some attachment's file cannot be read. */
  predicate SomeReadFails(atts: seq<AttachmentArg>, readFile: FileReader) {
    exists i :: 0 <= i < |atts| && ReadFails(atts[i], readFile)
  }

  /** `Promise.all(attachments.map(...))`: one provider attachment per entry,
      in order, or the rejection of one of the failing reads. */
  method ResolveAttachments(atts: seq<AttachmentArg>, readFile: FileReader, decode: Base64Decoder)
    returns (r: Result<seq<Attachment>, string>)
    ensures r.Err? <==> SomeReadFails(atts, readFile)
    ensures r.Err? ==> exists i :: 0 <= i < |atts| && ReadFails(atts[i], readFile) && r.error == readFile(atts[i].filePath.value).error
    ensures r.Ok? ==> |r.value| == |atts| && forall i :: 0 <= i < |atts| ==> IsAttachmentFor(atts[i], readFile, decode, r.value[i])
  {
    var resolved: seq<Attachment> := [];
    var i := 0;
    while i < |atts|
      invariant 0 <= i <= |atts| && |resolved| == i
      invariant forall k :: 0 <= k < i ==> !ReadFails(atts[k], readFile)
      invariant forall k :: 0 <= k < i ==> IsAttachmentFor(atts[k], readFile, decode, resolved[k])
    {
      var a := ResolveAttachment(atts[i], readFile, decode);
      if a.Err? {
        return Err(a.error);
      }
      resolved := resolved + [a.value];
      i := i + 1;
    }
    return Ok(resolved);
  }

  /** The call asks for attachments (a non-empty list). */
  predicate AttachmentsRequested(args: SendArgs) {
    args.attachments.Some? && |args.attachments.value| > 0
  }

  /** Resolving the requested attachments fails. */
  predicate AttachmentFails(args: SendArgs, readFile: FileReader) {
    AttachmentsRequested(args) && SomeReadFails(args.attachments.value, readFile)
  }

  /** The fields set before the attachments: `from ?? senderEmailAddress`,
      `replyTo ?? replierEmailAddresses`, the strings copied when truthy, and
      cc and bcc exactly as given (no defaults merged, an empty list kept). */
  predicate IsEnvelopeFor(defaults: ToolDefaults, args: SendArgs, q: EmailRequest) {
    && q.to == args.to && q.subject == args.subject && q.text == args.text
    && Some(q.from) == args.from.OrElse(defaults.senderEmailAddress)
    && q.replyTo == args.replyTo.GetOr(defaults.replierEmailAddresses)
    && CopiedIfPresent(args.html, q.html)
    && CopiedIfPresent(args.scheduledAt, q.scheduledAt)
    && q.cc == args.cc && q.bcc == args.bcc
  }

  /** The attachments, one per entry and in order, only for a non-empty list. */
  predicate HasAttachmentsFor(args: SendArgs, readFile: FileReader, decode: Base64Decoder, attachments: Option<seq<Attachment>>) {
    && (attachments.Some? <==> AttachmentsRequested(args))
    && (attachments.Some? ==>
          && |attachments.value| == |args.attachments.value|
          && forall i :: 0 <= i < |attachments.value| ==>
               IsAttachmentFor(args.attachments.value[i], readFile, decode, attachments.value[i]))
  }

  /** What the request must be: the envelope, the attachments, tags only for
      a non-empty list, and the topic when truthy. */
  predicate IsEmailRequestFor(defaults: ToolDefaults, args: SendArgs, readFile: FileReader, decode: Base64Decoder, q: EmailRequest) {
    && IsEnvelopeFor(defaults, args, q)
    && HasAttachmentsFor(args, readFile, decode, q.attachments)
    && (q.tags.Some? <==> args.tags.Some? && |args.tags.value| > 0)
    && (q.tags.Some? ==> q.tags == args.tags)
    && CopiedIfPresent(args.topicId, q.topicId)
  }

  /** The attachment description leaves nothing open. */
  lemma AttachmentIsDetermined(att: AttachmentArg, readFile: FileReader, decode: Base64Decoder, a1: Attachment, a2: Attachment)
    requires IsAttachmentFor(att, readFile, decode, a1) && IsAttachmentFor(att, readFile, decode, a2)
    ensures a1 == a2
  {
  }

  /** Neither does the request description. */
  lemma {:induction false} EmailRequestIsDetermined(defaults: ToolDefaults, args: SendArgs, readFile: FileReader, decode: Base64Decoder, q1: EmailRequest, q2: EmailRequest)
    requires IsEmailRequestFor(defaults, args, readFile, decode, q1) && IsEmailRequestFor(defaults, args, readFile, decode, q2)
    ensures q1 == q2
  {
    if q1.attachments.Some? {
      var as1, as2 := q1.attachments.value, q2.attachments.value;
      forall i | 0 <= i < |as1|
        ensures as1[i] == as2[i]
      {
        AttachmentIsDetermined(args.attachments.value[i], readFile, decode, as1[i], as2[i]);
      }
      assert as1 == as2;
    }
  }

  const FromMissing := "from argument must be provided."

  /** The required fields, then html, scheduledAt, cc and bcc in turn. */
  method BuildEnvelope(defaults: ToolDefaults, args: SendArgs, fromEmailAddress: string) returns (request: EmailRequest)
    requires Some(fromEmailAddress) == args.from.OrElse(defaults.senderEmailAddress)
    ensures IsEnvelopeFor(defaults, args, request)
    ensures request.attachments.None? && request.tags.None? && request.topicId.None?
  {
    var replyToEmailAddresses := args.replyTo.GetOr(defaults.replierEmailAddresses);
    request := EmailRequest(args.to, args.subject, args.text, fromEmailAddress, replyToEmailAddresses,
                            None, None, None, None, None, None, None);
    if Present(args.html) {
      request := request.(html := args.html);
    }
    if Present(args.scheduledAt) {
      request := request.(scheduledAt := args.scheduledAt);
    }
    if args.cc.Some? {
      request := request.(cc := args.cc);
    }
    if args.bcc.Some? {
      request := request.(bcc := args.bcc);
    }
  }

  /** Request assembly (tools/emails.ts:162-268): the required fields first,
      then each optional field in turn. */
  method BuildEmailRequest(defaults: ToolDefaults, args: SendArgs, readFile: FileReader, decode: Base64Decoder)
    returns (r: Result<EmailRequest, string>)
    ensures !HasSender(defaults, args) ==> r == Err(FromMissing)
    ensures HasSender(defaults, args) && AttachmentFails(args, readFile) ==>
      r.Err? && exists i :: 0 <= i < |args.attachments.value| && ReadFails(args.attachments.value[i], readFile)
                          && r.error == readFile(args.attachments.value[i].filePath.value).error
    ensures HasSender(defaults, args) && !AttachmentFails(args, readFile) ==>
      r.Ok? && IsEmailRequestFor(defaults, args, readFile, decode, r.value)
  {
    var fromEmailAddress := args.from.OrElse(defaults.senderEmailAddress);
    if fromEmailAddress.None? {
      return Err(FromMissing);
    }
    var request := BuildEnvelope(defaults, args, fromEmailAddress.value);
    if args.attachments.Some? && |args.attachments.value| > 0 {
      var resolved := ResolveAttachments(args.attachments.value, readFile, decode);
      if resolved.Err? {
        return Err(resolved.error);
      }
      request := request.(attachments := Some(resolved.value));
    }
    assert IsEnvelopeFor(defaults, args, request);
    assert HasAttachmentsFor(args, readFile, decode, request.attachments);
    if args.tags.Some? && |args.tags.value| > 0 {
      request := request.(tags := args.tags);
    }
    if Present(args.topicId) {
      request := request.(topicId := args.topicId);
    }
    return Ok(request);
  }

  /** The whole send-email call; `sent` is the request the provider received. */
  method SendEmail(defaults: ToolDefaults, args: SendArgs, readFile: FileReader, decode: Base64Decoder,
                   send: EmailRequest -> Response<string>)
    returns (reply: Result<string, string>, sent: Option<EmailRequest>)
    ensures sent.Some? <==> HasSender(defaults, args) && !AttachmentFails(args, readFile)
    ensures sent.Some? ==> IsEmailRequestFor(defaults, args, readFile, decode, sent.value) && reply == SentReply(send(sent.value))
    ensures !HasSender(defaults, args) ==> reply == Err(FromMissing)
    ensures HasSender(defaults, args) && AttachmentFails(args, readFile) ==>
      exists i :: 0 <= i < |args.attachments.value| && ReadFails(args.attachments.value[i], readFile)
               && reply == Err(readFile(args.attachments.value[i].filePath.value).error)
  {
    var request := BuildEmailRequest(defaults, args, readFile, decode);
    if request.Err? {
      return Err(request.error), None;
    }
    var response := send(request.value);
    return SentReply(response), Some(request.value);
  }

  /** A recipient field of a stored email: one address or several. */
  datatype Addresses = One(address: string) | Many(addresses: seq<string>)

  /** `Array.isArray(x) ? x.join(', ') : x`. */
  function AddressText(a: Addresses): (r: string)
    ensures a.One? ==> r == a.address
    ensures a.Many? ==> r == Join(a.addresses, ", ")
  {
    match a
    case One(s) => s
    case Many(items) => Join(items, ", ")
  }

  /** One entry of a list-emails page. */
  datatype EmailSummary = EmailSummary(
    id: string, to: Addresses, subject: string, lastEvent: string, createdAt: string, scheduledAt: Option<string>)

  /** The ` (Scheduled: …)` suffix, present iff `scheduled_at` is truthy. */
  function ScheduledInfo(scheduledAt: Option<string>): (r: string)
    ensures r == "" <==> !Present(scheduledAt)
    ensures Present(scheduledAt) ==> r == " (Scheduled: " + scheduledAt.value + ")"
  {
    if Present(scheduledAt) then " (Scheduled: " + scheduledAt.value + ")" else ""
  }

  function SummaryLine(e: EmailSummary): string {
    "- To: " + AddressText(e.to) + " | Subject: \"" + e.subject + "\" | Status: " + e.lastEvent
      + " | Sent: " + e.createdAt + ScheduledInfo(e.scheduledAt) + " | ID: " + e.id
  }

  function SummaryLines(emails: seq<EmailSummary>): (lines: seq<string>)
    ensures |lines| == |emails| && forall i :: 0 <= i < |emails| ==> lines[i] == SummaryLine(emails[i])
  {
    seq(|emails|, i requires 0 <= i < |emails| => SummaryLine(emails[i]))
  }

  function ListingHeader(count: nat, hasMore: bool): string {
    "Found " + NatToString(count) + " email(s)" + (if hasMore then " (more available)" else "") + ":"
  }

  /** The text of a list-emails reply. */
  function ListingText(emails: seq<EmailSummary>, hasMore: bool): (text: string)
    ensures emails == [] <==> text == "No emails found."
  {
    if |emails| == 0 then "No emails found."
    else
      var text := ListingHeader(|emails|, hasMore) + "\n\n" + Join(SummaryLines(emails), "\n");
      assert text[0] == 'F';
      text
  }

  /** No field that reaches a summary line holds a line break. */
  predicate SingleLine(e: EmailSummary) {
    && '\n' !in e.id && '\n' !in e.subject && '\n' !in e.lastEvent && '\n' !in e.createdAt
    && (e.to.One? ==> '\n' !in e.to.address)
    && (e.to.Many? ==> forall k :: 0 <= k < |e.to.addresses| ==> '\n' !in e.to.addresses[k])
    && (e.scheduledAt.Some? ==> '\n' !in e.scheduledAt.value)
  }

  lemma SummaryLineIsOneLine(e: EmailSummary)
    requires SingleLine(e)
    ensures '\n' !in SummaryLine(e)
  {
    if e.to.Many? {
      JoinAvoids(e.to.addresses, ", ", '\n');
    }
  }

  lemma {:induction false} ListingHeaderIsOneLine(count: nat, hasMore: bool)
    ensures '\n' !in ListingHeader(count, hasMore)
  {
    DigitsAvoidNewline(NatToString(count));
  }

  lemma {:induction false} ListingTextIsJoin(emails: seq<EmailSummary>, hasMore: bool)
    requires emails != []
    ensures ListingText(emails, hasMore) == Join([ListingHeader(|emails|, hasMore), ""] + SummaryLines(emails), "\n")
  {
    var header := ListingHeader(|emails|, hasMore);
    var lines := SummaryLines(emails);
    var parts := [header, ""] + lines;
    assert parts[0] == header && parts[1..] == [""] + lines;
    assert ([""] + lines)[0] == "" && ([""] + lines)[1..] == lines;
    assert Join([""] + lines, "\n") == "" + "\n" + Join(lines, "\n");
    assert Join(parts, "\n") == header + "\n" + Join([""] + lines, "\n");
    BlankLineBetween(header, Join(lines, "\n"));
  }

  lemma BlankLineBetween(h: string, j: string)
    ensures h + "\n\n" + j == h + "\n" + ("" + "\n" + j)
  {
    assert "" + "\n" + j == "\n" + j;
    assert "\n\n" == "\n" + "\n";
  }

  lemma {:induction false} ListingPartsAreLines(emails: seq<EmailSummary>, hasMore: bool)
    requires forall i :: 0 <= i < |emails| ==> SingleLine(emails[i])
    ensures var parts := [ListingHeader(|emails|, hasMore), ""] + SummaryLines(emails);
      forall i :: 0 <= i < |parts| ==> '\n' !in parts[i]
  {
    var parts := [ListingHeader(|emails|, hasMore), ""] + SummaryLines(emails);
    ListingHeaderIsOneLine(|emails|, hasMore);
    forall i | 0 <= i < |parts|
      ensures '\n' !in parts[i]
    {
      if i >= 2 {
        SummaryLineIsOneLine(emails[i - 2]);
      }
    }
  }

  /** The lines of a non-empty listing: the header (with the count and, iff
      there are more, " (more available)"), a blank line, and one summary per
      email in the order of the page. */
  lemma {:induction false} ListingLines(emails: seq<EmailSummary>, hasMore: bool)
    requires emails != []
    requires forall i :: 0 <= i < |emails| ==> SingleLine(emails[i])
    ensures Split(ListingText(emails, hasMore), '\n') == [ListingHeader(|emails|, hasMore), ""] + SummaryLines(emails)
  {
    ListingTextIsJoin(emails, hasMore);
    ListingPartsAreLines(emails, hasMore);
    SplitJoin([ListingHeader(|emails|, hasMore), ""] + SummaryLines(emails), '\n');
  }

  /** The header names the count of emails. */
  lemma {:induction false} ListingHeaderCount(count: nat, hasMore: bool)
    ensures var h := ListingHeader(count, hasMore);
      |h| > 6 + |NatToString(count)| && ParseDecimal(h[6..6 + |NatToString(count)|]) == count
  {
    var h := ListingHeader(count, hasMore);
    assert h[6..6 + |NatToString(count)|] == NatToString(count);
    ParseNatToString(count);
  }

  const MoreMarker := " (more available):"

  predicate EndsWith(s: string, suffix: string) {
    |suffix| <= |s| && s[|s| - |suffix|..] == suffix
  }

  /** " (more available)" closes the header exactly when the page says so. */
  lemma {:induction false} ListingHeaderMore(count: nat, hasMore: bool)
    ensures EndsWith(ListingHeader(count, hasMore), MoreMarker) <==> hasMore
  {
    var h := ListingHeader(count, hasMore);
    var n := NatToString(count);
    if hasMore {
      assert h == ("Found " + n + " email(s)") + MoreMarker;
    } else {
      assert h == "Found " + n + " email(s):";
      assert h[|h| - 3] == 's';
      if |MoreMarker| <= |h| {
        assert h[|h| - |MoreMarker|..][|MoreMarker| - 3] == h[|h| - 3];
      }
    }
  }

  /** The list-emails handler: a cursor clash is rejected, otherwise the
      provider is asked with the pagination options and its page rendered. */
  function ListEmails(req: PageRequest, list: Option<PaginationOptions> -> Response<Option<ListData<EmailSummary>>>): (r: Result<string, string>)
    ensures PaginationFor(req).Err? ==> r == Err(BothCursorsError)
    ensures PaginationFor(req).Ok? && list(PaginationFor(req).value).Error? ==>
      r == Err("Failed to list emails: " + list(PaginationFor(req).value).json)
    ensures PaginationFor(req).Ok? && list(PaginationFor(req).value).Data? ==>
      var d := list(PaginationFor(req).value).data;
      r == Ok(ListingText(PageItems(d), PageHasMore(d)))
  {
    match PaginationFor(req)
    case Err(e) => Err(e)
    case Ok(options) =>
      match Unwrap(list(options), "Failed to list emails: ")
      case Err(e) => Err(e)
      case Ok(d) => Ok(ListingText(PageItems(d), PageHasMore(d)))
  }

  /** The clash is detected before the provider is asked: the answer does not
      depend on the provider at all. */
  lemma CursorClashSkipsProvider(req: PageRequest, list1: Option<PaginationOptions> -> Response<Option<ListData<EmailSummary>>>,
                                 list2: Option<PaginationOptions> -> Response<Option<ListData<EmailSummary>>>)
    requires Present(req.after) && Present(req.before)
    ensures ListEmails(req, list1) == ListEmails(req, list2) == Err(BothCursorsError)
  {
  }

  /** A stored email as get-email receives it. */
  datatype EmailDetails = EmailDetails(
    id: string, from: string, to: Addresses, cc: Option<Addresses>, bcc: Option<Addresses>, replyTo: Option<Addresses>,
    subject: string, lastEvent: string, createdAt: string, scheduledAt: Option<string>,
    text: Option<string>, html: Option<string>)

  /** `x ? (Array.isArray(x) ? x.join(', ') : x) : null`, with `null` and the
      empty string both read as "no line". */
  function OptionalAddressText(a: Option<Addresses>): (r: string)
    ensures a.None? ==> r == ""
    ensures a.Some? ==> r == AddressText(a.value)
  {
    if a.Some? then AddressText(a.value) else ""
  }

  /** The single lines of the details, by what they show. */
  datatype Label = Id | From | To | Cc | Bcc | ReplyTo | Subject | Status | Created | Scheduled

  /** The text in front of a line's value. */
  function Lead(key: Label): string {
    match key
    case Id => "- ID: "
    case From => "- From: "
    case To => "- To: "
    case Cc => "- CC: "
    case Bcc => "- BCC: "
    case ReplyTo => "- Reply-To: "
    case Subject => "- Subject: "
    case Status => "- Status: "
    case Created => "- Created: "
    case Scheduled => "- Scheduled: "
  }

  /** One part of the details text: a line `- Label: ` + value, or a section
      whose heading is `\n--- Title ---\n`; both end with a line break. */
  datatype DetailEntry = Line(key: Label, value: string) | Section(heading: string, body: string)

  function EntryText(e: DetailEntry): string {
    match e
    case Line(key, value) => Lead(key) + value + "\n"
    case Section(heading, body) => heading + body + "\n"
  }

  /** `text` followed by the text of each entry in turn. */
  function RenderDetails(text: string, es: seq<DetailEntry>): string {
    if es == [] then text else RenderDetails(text, es[..|es| - 1]) + EntryText(es[|es| - 1])
  }

  /** A line that appears only when its value is truthy. */
  function OptionalLine(key: Label, value: string): seq<DetailEntry> {
    if value == "" then [] else [Line(key, value)]
  }

  function PlainTextBody(text: Option<string>): string {
    if Present(text) then text.value else "(none)"
  }

  const PlainTextHeading := "\n--- Plain Text Content ---\n"
  const HtmlHeading := "\n--- HTML Content ---\n"

  /** The recipient lines. */
  function AddressingEntries(email: EmailDetails): seq<DetailEntry> {
    OptionalLine(Cc, OptionalAddressText(email.cc))
      + OptionalLine(Bcc, OptionalAddressText(email.bcc))
      + OptionalLine(ReplyTo, OptionalAddressText(email.replyTo))
  }

  /** The content sections. */
  function ContentEntries(email: EmailDetails): seq<DetailEntry> {
    [Section(PlainTextHeading, PlainTextBody(email.text))]
      + (if Present(email.html) then [Section(HtmlHeading, email.html.value)] else [])
  }

  /** The lines before the recipient lines. */
  function HeadEntries(email: EmailDetails): seq<DetailEntry> {
    [Line(Id, email.id), Line(From, email.from), Line(To, AddressText(email.to))]
  }

  /** The lines and sections after the recipient lines. */
  function TailEntries(email: EmailDetails): seq<DetailEntry> {
    [Line(Subject, email.subject), Line(Status, email.lastEvent), Line(Created, email.createdAt)]
      + OptionalLine(Scheduled, email.scheduledAt.GetOr(""))
      + ContentEntries(email)
  }

  /** The parts of the details, in order. */
  function DetailEntries(email: EmailDetails): seq<DetailEntry> {
    HeadEntries(email) + AddressingEntries(email) + TailEntries(email)
  }

  const DetailsHeading := "Email Details:\n"

  lemma {:induction false} RenderAppend(text: string, a: seq<DetailEntry>, b: seq<DetailEntry>)
    ensures RenderDetails(text, a + b) == RenderDetails(RenderDetails(text, a), b)
    decreases |b|
  {
    if b == [] {
      assert a + b == a;
    } else {
      assert (a + b)[..|a + b| - 1] == a + b[..|b| - 1];
      assert (a + b)[|a + b| - 1] == b[|b| - 1];
      RenderAppend(text, a, b[..|b| - 1]);
    }
  }

  lemma {:induction false} RenderThree(text: string, x: DetailEntry, y: DetailEntry, z: DetailEntry)
    ensures RenderDetails(text, [x, y, z]) == text + EntryText(x) + EntryText(y) + EntryText(z)
  {
    assert [x][..0] == [];
    assert RenderDetails(text, [x]) == text + EntryText(x);
    assert [x, y][..1] == [x];
    assert RenderDetails(text, [x, y]) == RenderDetails(text, [x]) + EntryText(y);
    assert [x, y, z][..2] == [x, y];
    assert RenderDetails(text, [x, y, z]) == RenderDetails(text, [x, y]) + EntryText(z);
  }

  /** The text of a line that appears only when its value is truthy. */
  function OptionalLineText(lead: string, value: string): string {
    if value == "" then "" else lead + value + "\n"
  }

  lemma {:induction false} RenderOptional(text: string, es: seq<DetailEntry>, lead: string, value: string)
    requires value == "" ==> es == []
    requires value != "" ==> |es| == 1 && EntryText(es[0]) == lead + value + "\n"
    ensures RenderDetails(text, es) == text + OptionalLineText(lead, value)
  {
    if value == "" {
      assert text + "" == text;
    } else {
      assert es[..0] == [];
    }
  }

  /** The details text written out line by line. */
  function DetailsText(email: EmailDetails): string {
    DetailsHeading
      + ("- ID: " + email.id + "\n") + ("- From: " + email.from + "\n") + ("- To: " + AddressText(email.to) + "\n")
      + OptionalLineText("- CC: ", OptionalAddressText(email.cc))
      + OptionalLineText("- BCC: ", OptionalAddressText(email.bcc))
      + OptionalLineText("- Reply-To: ", OptionalAddressText(email.replyTo))
      + ("- Subject: " + email.subject + "\n") + ("- Status: " + email.lastEvent + "\n") + ("- Created: " + email.createdAt + "\n")
      + OptionalLineText("- Scheduled: ", email.scheduledAt.GetOr(""))
      + (PlainTextHeading + PlainTextBody(email.text) + "\n")
      + OptionalLineText(HtmlHeading, email.html.GetOr(""))
  }

  lemma {:induction false} RenderAddressing(text: string, email: EmailDetails)
    ensures RenderDetails(text, AddressingEntries(email)) == text
      + OptionalLineText("- CC: ", OptionalAddressText(email.cc))
      + OptionalLineText("- BCC: ", OptionalAddressText(email.bcc))
      + OptionalLineText("- Reply-To: ", OptionalAddressText(email.replyTo))
  {
    var c := OptionalLine(Cc, OptionalAddressText(email.cc));
    var b := OptionalLine(Bcc, OptionalAddressText(email.bcc));
    var r := OptionalLine(ReplyTo, OptionalAddressText(email.replyTo));
    RenderAppend(text, c + b, r);
    RenderAppend(text, c, b);
    RenderOptional(text, c, "- CC: ", OptionalAddressText(email.cc));
    RenderOptional(RenderDetails(text, c), b, "- BCC: ", OptionalAddressText(email.bcc));
    RenderOptional(RenderDetails(text, c + b), r, "- Reply-To: ", OptionalAddressText(email.replyTo));
  }

  lemma {:induction false} RenderContent(text: string, email: EmailDetails)
    ensures RenderDetails(text, ContentEntries(email)) ==
      text + (PlainTextHeading + PlainTextBody(email.text) + "\n") + OptionalLineText(HtmlHeading, email.html.GetOr(""))
  {
    var p := [Section(PlainTextHeading, PlainTextBody(email.text))];
    var h := if Present(email.html) then [Section(HtmlHeading, email.html.value)] else [];
    RenderAppend(text, p, h);
    assert p[..0] == [];
    assert RenderDetails(text, p) == text + (PlainTextHeading + PlainTextBody(email.text) + "\n");
    if h == [] {
      RenderOptional(RenderDetails(text, p), h, HtmlHeading, email.html.GetOr(""));
    } else {
      RenderOptional(RenderDetails(text, p), h, HtmlHeading, email.html.GetOr(""));
    }
  }

  /** The line-by-line text is the heading followed by the entries. */
  lemma {:induction false} DetailsTextIsEntries(email: EmailDetails)
    ensures DetailsText(email) == RenderDetails(DetailsHeading, DetailEntries(email))
  {
    var g1 := HeadEntries(email);
    var g2 := AddressingEntries(email);
    var g3 := [Line(Subject, email.subject), Line(Status, email.lastEvent), Line(Created, email.createdAt)];
    var g4 := OptionalLine(Scheduled, email.scheduledAt.GetOr(""));
    var g5 := ContentEntries(email);
    RenderAppend(DetailsHeading, g1 + g2, g3 + g4 + g5);
    RenderAppend(DetailsHeading, g1, g2);
    var x := RenderDetails(DetailsHeading, g1 + g2);
    RenderAppend(x, g3 + g4, g5);
    RenderAppend(x, g3, g4);
    RenderThree(DetailsHeading, g1[0], g1[1], g1[2]);
    RenderAddressing(RenderDetails(DetailsHeading, g1), email);
    RenderThree(x, g3[0], g3[1], g3[2]);
    RenderOptional(RenderDetails(x, g3), g4, "- Scheduled: ", email.scheduledAt.GetOr(""));
    RenderContent(RenderDetails(x, g3 + g4), email);
  }

  /** `if (value) details += `${lead}${value}\n``. */
  method AppendIfPresent(details: string, lead: string, value: string) returns (d: string)
    ensures d == details + OptionalLineText(lead, value)
  {
    d := details;
    if value != "" {
      d := d + (lead + value + "\n");
    }
  }

  /** The details text, accumulated with `+=` (tools/emails.ts:436-450). */
  method FormatDetails(email: EmailDetails) returns (details: string)
    ensures details == RenderDetails(DetailsHeading, DetailEntries(email))
  {
    var to := AddressText(email.to);
    var cc := OptionalAddressText(email.cc);
    var bcc := OptionalAddressText(email.bcc);
    var replyTo := OptionalAddressText(email.replyTo);
    details := DetailsHeading;
    details := details + ("- ID: " + email.id + "\n");
    details := details + ("- From: " + email.from + "\n");
    details := details + ("- To: " + to + "\n");
    details := AppendIfPresent(details, "- CC: ", cc);
    details := AppendIfPresent(details, "- BCC: ", bcc);
    details := AppendIfPresent(details, "- Reply-To: ", replyTo);
    details := details + ("- Subject: " + email.subject + "\n");
    details := details + ("- Status: " + email.lastEvent + "\n");
    details := details + ("- Created: " + email.createdAt + "\n");
    details := AppendIfPresent(details, "- Scheduled: ", email.scheduledAt.GetOr(""));
    details := details + (PlainTextHeading + PlainTextBody(email.text) + "\n");
    details := AppendIfPresent(details, HtmlHeading, email.html.GetOr(""));
    DetailsTextIsEntries(email);
  }

  /** The recipient lines: each appears exactly when its text is non-empty,
      address lists being joined by ", " (so an empty list gives no line). */
  /** Whether an entry is a CC, BCC or Reply-To line. */
  predicate IsAddressing(e: DetailEntry) {
    e.Line? && (e.key == Cc || e.key == Bcc || e.key == ReplyTo)
  }

  lemma OthersAreNotAddressing(email: EmailDetails)
    ensures forall e :: e in HeadEntries(email) ==> !IsAddressing(e)
    ensures forall e :: e in TailEntries(email) ==> !IsAddressing(e)
  {
  }

  lemma AddressingLines(email: EmailDetails, v: string)
    ensures Line(Cc, v) in DetailEntries(email) <==> v != "" && v == OptionalAddressText(email.cc)
    ensures Line(Bcc, v) in DetailEntries(email) <==> v != "" && v == OptionalAddressText(email.bcc)
    ensures Line(ReplyTo, v) in DetailEntries(email) <==> v != "" && v == OptionalAddressText(email.replyTo)
  {
    OthersAreNotAddressing(email);
  }

  /** The Scheduled line appears exactly when `scheduled_at` is truthy. */
  lemma ScheduledLine(email: EmailDetails, v: string)
    ensures Line(Scheduled, v) in DetailEntries(email) <==> Present(email.scheduledAt) && v == email.scheduledAt.value
  {
  }

  /** The plain-text section is always there, reading "(none)" for an empty
      text; the HTML section is there exactly when the HTML is non-empty. */
  lemma ContentSections(email: EmailDetails, b: string)
    ensures Section(PlainTextHeading, b) in DetailEntries(email) <==> b == PlainTextBody(email.text)
    ensures !Present(email.text) ==> PlainTextBody(email.text) == "(none)"
    ensures Section(HtmlHeading, b) in DetailEntries(email) <==> Present(email.html) && b == email.html.value
  {
  }

  /** The get-email handler: a provider error, a missing email, or the
      details text. */
  method GetEmail(id: string, get: string -> Response<Option<EmailDetails>>) returns (reply: Result<string, string>)
    ensures get(id).Error? ==> reply == Err("Failed to retrieve email: " + get(id).json)
    ensures get(id) == Data(None) ==> reply == Err("Email with ID " + id + " not found.")
    ensures get(id).Data? && get(id).data.Some? ==> reply == Ok(RenderDetails(DetailsHeading, DetailEntries(get(id).data.value)))
  {
    var response := get(id);
    match Unwrap(response, "Failed to retrieve email: ")
    case Err(e) =>
      return Err(e);
    case Ok(email) =>
      if email.None? {
        return Err("Email with ID " + id + " not found.");
      }
      var details := FormatDetails(email.value);
      return Ok(details);
  }
}
