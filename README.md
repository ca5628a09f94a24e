# A verified model of the core of `mcp-send-email`

`mcp-send-email` is an MCP server that lets an assistant send and inspect
email through the Resend API. This project models its core in Dafny and
proves properties of the model:

- **Configuration of the stdio server** (`src/cli/resolve.ts`, `src/cli/index.ts`,
  with the types of `src/cli/types.ts`). The API key comes from a string `--key`,
  else from `RESEND_API_KEY`, and is trimmed. A blank key is rejected. The default
  sender and the reply-to list are resolved alongside it. Help, failure and success
  become an outcome value with its exit code.
- **The original single-file server** (`index.ts`). It reads the settings with
  `||` fallbacks and checks the API key at start-up. Its send-email tool has a
  conditional schema and resolves `from` (with the optional display name). It
  merges call-time cc/bcc lists with the configured ones and builds the provider
  request field by field.
- **The email tools** (`tools/emails.ts`):
  - send-email: the conditional schema, request assembly, and attachment
    resolution by the priority filePath > url > content;
  - list-emails: cursor pagination and the summary text;
  - get-email: the details text, accumulated line by line.
- **The segment tools** (`tools/segments.ts`): create, list, get and remove, each
  as the list of text blocks it returns.
- **The compose-email tool** (`tools/composeEmailUi.ts`):
  - `escapeHtml`;
  - which inputs the composer form shows, and with which escaped prefill values;
  - the prefill computed from the call;
  - the two-part result.

Collaborators the code cannot see are function parameters of the model:
- the provider SDK (`Sdk.Response`: data or an error payload, represented by
  its JSON text);
- `fs.readFile`;
- `Buffer.from(…, 'base64')`;
- `parseReplierAddresses` of `src/cli/parse.ts`.

Imperative steps of the source are methods:
- the request objects filled in field by field;
- the per-attachment record;
- the loop over the attachments;
- the `+=` accumulation of the get-email details.

Each method is proved against a predicate or function that describes its result.

JavaScript semantics are modelled explicitly. Module `JsArgs` holds:
- truthiness (an empty array is truthy; `''`, `false`, `0` and `undefined` are not);
- `??` against `||`;
- `typeof … === 'string'`.

Module `Text` holds:
- `trim` on the ECMAScript whitespace set;
- `join`, and `split` on one character;
- the decimal rendering of a count.

### Notes on the code's behaviour

- In `resolveConfig`, a `--sender` string is taken verbatim. Only `SENDER_EMAIL_ADDRESS` is trimmed.
- The stdio configuration has exactly the three fields `apiKey`, `senderEmailAddress` and
  `replierEmailAddresses`. It has no cc/bcc defaults.
- The newer send-email copies `cc`/`bcc` as given: no merging with defaults, and an empty
  list is kept. The legacy one merges them and drops an empty result.
- The defensive `from` check is only `typeof … === 'string'`, so an empty string passes it.
- In the legacy server that check can still fail for a call its schema accepts. `--sender 42`
  (or a bare `--sender`) makes the default sender a truthy non-string, so the schema does not
  offer `from`. Without a sender name, the resolved `from` is then that non-string value.

## Model

| member | source | states |
|---|---|---|
| CliResolve.ResolveConfig | src/cli/resolve.ts:8-39 | A rejection carries the "No API key" message. A success means a key was chosen, and the config is the trimmed chosen key (non-empty), the resolved sender and exactly the parser's reply-to list |
| CliResolve.RejectedIffBlankKey | src/cli/resolve.ts:12-23 | Rejected iff the chosen key is missing or all whitespace. The chosen key is a string `--key`, else `RESEND_API_KEY` |
| CliResolve.ResolvedKey | src/cli/resolve.ts:17-34 | Resolved iff a key was chosen and it trims to something; the key is then that trim |
| CliResolve.ChosenApiKey | src/cli/resolve.ts:12-15 | A string `--key` is chosen; otherwise `RESEND_API_KEY` when set; no key exactly when neither is there |
| CliResolve.ResolveSender | src/cli/resolve.ts:25-35 | A string `--sender` verbatim; else `SENDER_EMAIL_ADDRESS` trimmed (a blank value gives `''`); else `''` |
| CliResolve.ResolvedApiKeyIsTrimmed | src/cli/resolve.ts:17-34 | A resolved key is non-empty, is its own trim, and neither starts nor ends with whitespace |
| CliResolve.CliKeyTakesPrecedence | src/cli/resolve.ts:12-15 | With a string `--key`, no environment changes the outcome or the key |
| CliResolve.BlankCliKeyShadowsEnvKey | src/cli/resolve.ts:12-23 | A blank string `--key` is rejected even when `RESEND_API_KEY` is valid, because `??` only skips null |
| CliResolve.NonStringKeyFallsThrough | src/cli/resolve.ts:13 | A non-string `--key` gives the same result as no `--key` |
| CliResolve.SenderNeverCausesFailure | src/cli/resolve.ts:25-38 | Changing the CLI or environment sender changes neither success nor the key |
| CliResolve.NoKeyExample | tests/cli/resolve.test.ts:6-13 | No key anywhere gives the "No API key" rejection |
| CliResolve.BlankKeyExample | tests/cli/resolve.test.ts:15-20 | A whitespace-only `--key` and env key is rejected |
| CliResolve.PaddedKeyExample | tests/cli/resolve.test.ts:22-31 | `--key '  re_abc  '` resolves to `re_abc`, sender `''`, no repliers |
| CliResolve.CliKeyExample | tests/cli/resolve.test.ts:42-49 | `--key re_cli` wins over `RESEND_API_KEY=re_env` |
| CliResolve.EnvSenderExample | tests/cli/resolve.test.ts:60-70 | `SENDER_EMAIL_ADDRESS=' env@resend.dev '` becomes `env@resend.dev` |
| CliResolve.EnvRepliersExample | tests/cli/resolve.test.ts:81-94 | `REPLY_TO_EMAIL_ADDRESSES='r1@x.com,r2@x.com'` gives the two addresses, under the array-or-string parsing rule |
| Cli.ParseCli | src/cli/index.ts:9-24 | Help iff `help` or `h` is the boolean `true`; otherwise `Error: ` plus the resolver's message on rejection, or exactly the resolved configuration |
| Cli.HelpRequested | src/cli/index.ts:13 | Definition: `help` or `h` is exactly the boolean `true` |
| Cli.HelpNeedsNoApiKey | src/cli/index.ts:13-16 | Help wins before resolution, even with no key and an empty environment, and exits 0 |
| Cli.TruthyNonBooleanIsNotHelp | src/cli/index.ts:13 | A truthy non-boolean `help` does not ask for help; exit 1 iff resolution rejects |
| Cli.ResolutionOutcome | src/cli/index.ts:18-23 | Without help: exit 1 iff rejected, and no exit iff resolved |
| Cli.NoKeyFailsExample | tests/cli/resolveConfigOrExit.test.ts:41-49 | No arguments and no environment: `Error: ` plus the message, exit 1 |
| Cli.ValidConfigExample | tests/cli/resolveConfigOrExit.test.ts:51-60 | `--key re_abc --sender x@r.dev` returns exactly that configuration with no repliers |
| JsArgs.ParseArrayOrStringParam | index.ts:26-39 | An array is returned unchanged and a string becomes a one-element list. Otherwise a non-empty env value is split on the delimiter: the pieces are free of it, there is at least one, and joining them with it gives the value back. Otherwise `[]` |
| JsArgs.CliParamShadowsEnv | index.ts:31-37 | Any CLI string or array makes the environment value irrelevant |
| LegacyServer.ReadSettings | index.ts:8-54 | key, sender and sender name are the CLI value when truthy, else the environment value; the three lists follow the array-or-string rule |
| LegacyServer.Start | index.ts:56-61 | Exit with code 1 and the "No API key provided" message iff the key is falsy; otherwise serve with the settings |
| LegacyServer.BlankKeyStarts | index.ts:56-61 | A whitespace key passes the check (no trimming) |
| LegacyServer.EmptyCliKeyFallsBack | index.ts:11 | An empty `--key` falls back to `RESEND_API_KEY`: exit iff that is missing or empty |
| LegacyServer.LegacySendSchema | index.ts:106-129 | `from` is required iff the default sender is falsy; `replyTo` is offered iff the reply-to list is empty |
| ToolSchema.ConditionalSchema | index.ts:106-129 | Both directions: `from` is required or not offered, and `replyTo` is optional or not offered, by the defaults |
| LegacyServer.FromEmailAddress | index.ts:134-138 | The call's `from`; else `name <sender>` when the name is truthy; else the default sender |
| LegacyServer.CombinedAddresses | index.ts:141-149 | The call-time list followed by the defaults, positions preserved, lengths adding up |
| LegacyServer.BuildLegacyRequest | index.ts:131-201 | Error "from argument must be provided." iff the resolved from is not a string. Otherwise a request meeting `IsLegacyRequestFor`: the required fields copied, html/scheduledAt iff truthy, cc/bcc iff the combined list is non-empty |
| LegacyServer.LegacyRequestIsDetermined | index.ts:167-201 | `IsLegacyRequestFor` pins the request down uniquely |
| LegacyServer.LegacySendEmail | index.ts:131-221 | The provider receives a request iff from resolves; the reply is the success text with the data, or the failure text with the error |
| LegacyServer.ConformingCallHasSender | index.ts:151-155 | When the default sender is absent or a string, a schema-conforming call never reaches the defensive `from` error |
| LegacyServer.NonStringSenderFailsConformingCall | index.ts:106-155 | With a truthy non-string default sender and no sender name, a schema-conforming call has no `from` and its resolved `from` is not a string, so it reaches the defensive error |
| LegacyServer.NumericSenderExample | index.ts:8-19 | `--sender 42` without a sender name: every schema-conforming call resolves `from` to a non-string |
| LegacyServer.DefaultSenderIsUsed | index.ts:106-138 | With a default sender, `from` is not offered. Without a sender name the default is the resolved `from`; with one, it is `name <default>` |
| Sdk.Unwrap | tools/segments.ts:17-21 | Error iff the response is an error, with the message embedding the serialised error; otherwise the data |
| Sdk.SentReply | tools/emails.ts:272-287 | `Email sent successfully! ` plus the data, or `Email failed to send: ` plus the error |
| Text.Trim | src/cli/resolve.ts:34 | Starts and ends with non-whitespace; empty iff the input is all whitespace |
| Text.TrimIsInfix | src/cli/resolve.ts:34 | The trim is a slice of the input with only whitespace before and after it |
| Text.TrimmedIsTrimmed | src/cli/resolve.ts:17-34 | A non-empty trim is its own trim and has non-whitespace at both ends |
| Text.TrimIdempotent | src/cli/resolve.ts:17-34 | Trimming twice is trimming once |
| Text.SplitJoin | index.ts:36 | Splitting on a separator that is in no part undoes a join |
| Text.JoinSplit | index.ts:36 | Joining the pieces of a split gives the string back |
| EmailTools.EmailSendSchema | tools/emails.ts:125-145 | `from` is required iff `senderEmailAddress` is falsy; `replyTo` is optional iff the defaults are empty |
| EmailTools.ConformingCallHasSender | tools/emails.ts:162-169 | A schema-conforming call always has a sender |
| EmailTools.ResolveAttachment | tools/emails.ts:231-258 | Fails iff the filePath read fails, with that read's error. Otherwise `IsAttachmentFor` holds: the content comes from the first truthy of filePath (file bytes), url (as `path`) and content (base64-decoded), and the names are copied when truthy |
| EmailTools.AttachmentHasOneSource | tools/emails.ts:244-255 | Never both content and path; neither iff none of the three sources is given |
| EmailTools.AttachmentIsDetermined | tools/emails.ts:231-258 | `IsAttachmentFor` determines the attachment |
| EmailTools.ResolveAttachments | tools/emails.ts:229-259 | Fails iff some read fails, with the error of a failing read. Otherwise one attachment per entry, in order |
| EmailTools.BuildEnvelope | tools/emails.ts:163-228 | The required fields with `replyTo ?? replierEmailAddresses`, html and scheduledAt when truthy, cc and bcc when given; no attachments, tags or topic yet |
| EmailTools.BuildEmailRequest | tools/emails.ts:162-268 | "from argument must be provided." without a sender; an attachment failure's error; otherwise a request meeting `IsEmailRequestFor` |
| EmailTools.EmailRequestIsDetermined | tools/emails.ts:204-268 | `IsEmailRequestFor` determines the request: from/replyTo fall back to the defaults; html, scheduledAt and topicId iff truthy; cc/bcc as given; attachments and tags iff non-empty |
| EmailTools.SendEmail | tools/emails.ts:162-288 | The provider is called iff there is a sender and no attachment fails; the reply follows the provider's answer |
| EmailTools.AddressText | tools/emails.ts:374 | One address as is, several joined with `", "` |
| EmailTools.ScheduledInfo | tools/emails.ts:375-377 | Empty iff `scheduled_at` is falsy, else ` (Scheduled: …)` |
| EmailTools.SummaryLine | tools/emails.ts:373-378 | Definition: the To, Subject, Status, Sent, optional Scheduled and ID fields of one email, separated by vertical bars |
| EmailTools.SummaryLines | tools/emails.ts:372-380 | One summary per email, in order |
| EmailTools.ListingText | tools/emails.ts:361-386 | "No emails found." exactly for an empty page |
| EmailTools.ListingLines | tools/emails.ts:372-386 | A non-empty listing splits into the header, a blank line, and one line per email in order |
| EmailTools.SummaryLineIsOneLine | tools/emails.ts:378 | A summary of line-free fields has no line break |
| EmailTools.ListingHeader | tools/emails.ts:386 | Definition: `Found N email(s)`, ` (more available)` when there is more, then `:` |
| EmailTools.ListingHeaderCount | tools/emails.ts:386 | The header's number reads back as the count |
| EmailTools.ListingHeaderMore | tools/emails.ts:386 | The header ends in ` (more available):` iff `has_more` |
| EmailTools.ListEmails | tools/emails.ts:330-390 | A cursor clash error, the "Failed to list emails: " error, or the listing of `data ?? []` with `has_more ?? false` |
| EmailTools.CursorClashSkipsProvider | tools/emails.ts:331-350 | With both cursors the result does not depend on the provider |
| Pagination.PaginationFor | tools/emails.ts:331-348 | Error iff both cursors are truthy. Otherwise `{limit, after}`, else `{limit, before}`, else `{limit}` when a limit is given, else undefined |
| Pagination.PaginationForwardsRequest | tools/segments.ts:73-79 | The provider receives the given truthy cursor, at most one cursor, and the given limit |
| Pagination.PageItems | tools/emails.ts:358 | `response.data?.data ?? []` |
| Pagination.PageHasMore | tools/emails.ts:359 | True iff `has_more` is `true` |
| EmailTools.OptionalAddressText | tools/emails.ts:420-434 | A missing field gives no text, otherwise its address text |
| EmailTools.AppendIfPresent | tools/emails.ts:440-442 | The details so far, followed by the labelled line exactly when the value is non-empty |
| EmailTools.FormatDetails | tools/emails.ts:436-450 | The `+=` accumulation yields the heading followed by the rendered detail entries |
| EmailTools.DetailsTextIsEntries | tools/emails.ts:436-450 | The line-by-line text equals the heading followed by the rendered entries |
| EmailTools.AddressingLines | tools/emails.ts:419-442 | A CC, BCC or Reply-To line is present iff its joined text is non-empty, and carries that text |
| EmailTools.ScheduledLine | tools/emails.ts:446 | A Scheduled line is present iff `scheduled_at` is truthy |
| EmailTools.PlainTextBody | tools/emails.ts:447 | Definition: the text when truthy, else `(none)` |
| EmailTools.ContentSections | tools/emails.ts:447-450 | The plain-text section is always present, reading "(none)" for an empty text; the HTML section iff the HTML is truthy |
| EmailTools.GetEmail | tools/emails.ts:402-460 | The "Failed to retrieve email: " error, "Email with ID … not found." for no data, or the details |
| SegmentTools.CreateSegment | tools/segments.ts:12-34 | The provider error, or three blocks with `Name: …\nID: …` second |
| SegmentTools.CreatedBlock | tools/segments.ts:27 | Definition: `Name: …` and `ID: …` joined by a line break |
| SegmentTools.CreatedBlockLines | tools/segments.ts:27 | The second block splits into its Name and ID lines |
| SegmentTools.SegmentBlock | tools/segments.ts:104-107 | Definition: `Name: …`, `ID: …` and `Created at: …` joined by line breaks |
| SegmentTools.SegmentBlockLines | tools/segments.ts:104-107 | A segment block splits into its Name, ID and Created-at lines |
| SegmentTools.ListingHeader | tools/segments.ts:102 | Definition: `Found N segment`, `s` unless N is 1, then `:` |
| SegmentTools.ListingHeaderPlural | tools/segments.ts:102 | The header ends `s:` iff the count is not 1 |
| SegmentTools.ListingBlocks | tools/segments.ts:92-121 | Exactly one block, "No segments found.", for an empty page. Otherwise 1 + N + (has_more ? 1 : 0) + 1 blocks: the header, the segments in order, the note last |
| SegmentTools.MoreBlockIff | tools/segments.ts:108-115 | The "more segments" block appears iff `has_more` |
| SegmentTools.ListSegments | tools/segments.ts:62-122 | A cursor clash error, the "Failed to list segments: " error, or the blocks of the page |
| SegmentTools.CursorClashSkipsProvider | tools/segments.ts:63-81 | With both cursors the result does not depend on the provider |
| SegmentTools.GetSegment | tools/segments.ts:131-151 | The provider error, or the segment's block |
| SegmentTools.RemoveSegment | tools/segments.ts:160-177 | The provider error, or the confirmation and `ID: …` |
| ComposeUi.EscapeHtml | tools/composeEmailUi.ts:6-13 | Definition: the five global replacements in the source's order, `&` first; its properties are the lemmas below |
| ComposeUi.ReplaceAllRemoves | tools/composeEmailUi.ts:8 | A replaced character is gone unless its replacement has it; no occurrence means no change |
| ComposeUi.ReplaceAllAppend | tools/composeEmailUi.ts:8-12 | A global replacement distributes over concatenation |
| ComposeUi.EscapeHtmlAppend | tools/composeEmailUi.ts:6-13 | The escape of `a + b` is the escape of `a` followed by the escape of `b` |
| ComposeUi.EscapeSingle | tools/composeEmailUi.ts:8-12 | Each character escapes to its entity; `&` goes first, so later entities are not re-escaped |
| ComposeUi.EscapeHtmlIsPerChar | tools/composeEmailUi.ts:6-13 | `escapeHtml` equals per-character escaping |
| ComposeUi.EscapeHtmlIsSafe | tools/composeEmailUi.ts:6-13 | The output has no `<`, `>`, `"` or `'` |
| ComposeUi.EscapeHtmlKeepsPlainText | tools/composeEmailUi.ts:6-13 | The identity on strings free of `& < > " '` |
| ComposeUi.UnescapeEscapeHtml | tools/composeEmailUi.ts:8-12 | Decoding the five entities gives back the input: each `&` became exactly `&amp;` |
| ComposeUi.ShownControls | tools/composeEmailUi.ts:173-193 | The inputs in page order; From iff `showFrom`, Reply-To iff `showReplyTo`, the others always; none twice |
| ComposeUi.ComposerFields | tools/composeEmailUi.ts:173-193 | One field per shown input, in order, with the escaped prefill value |
| ComposeUi.FieldsAreShownInputs | tools/composeEmailUi.ts:176-193 | A field is on the page iff its input is shown and it carries the escaped value |
| ComposeUi.FieldValuesAreEscaped | tools/composeEmailUi.ts:174-193 | Every value on the page is markup-safe and decodes to its prefill value |
| ComposeUi.ShowFrom | tools/composeEmailUi.ts:282 | From is shown iff no sender or an empty one is configured |
| ComposeUi.ShowReplyTo | tools/composeEmailUi.ts:283 | Reply-To is shown iff no reply-to addresses are configured |
| ComposeUi.FormAsksWhatSchemaAsks | tools/composeEmailUi.ts:282-283 | The form has From iff send-email requires `from`, and Reply-To iff it offers `replyTo` |
| ComposeUi.ComposePrefill | tools/composeEmailUi.ts:416-432 | Missing arguments become empty; to/cc/bcc are joined with `", "`; `from` is `''`; `replyTo` is the configured list joined |
| ComposeUi.CommaListJoin | tools/composeEmailUi.ts:417-421 | The comma pieces of a `", "` join, trimmed, are the joined addresses again (against a reference reader, not the page's `parseEmails`) |
| ComposeUi.DefaultPrefill | tools/composeEmailUi.ts:288-301 | The template page is the prefill of a call without arguments |
| ComposeUi.ShownDefaultsAreEmpty | tools/composeEmailUi.ts:425-432 | A shown From or Reply-To input is always empty |
| ComposeUi.ComposeEmail | tools/composeEmailUi.ts:457-464 | Two blocks: the instruction text, then the composer of the call's prefill |

## Left out

- `src/cli/parse.ts` is not part of this model. `parseArgs` is represented by its result (a map of option values), and `parseReplierAddresses` is a function parameter. The replier examples use the array-or-string rule of `index.ts` in its place.
- Provider SDK calls, `fs.readFile` and `Buffer.from(…, 'base64')` are function parameters; `JSON.stringify` of a payload is represented by the payload's JSON text.
- zod validation (email formats, `min`/`max`, `nonempty`) is assumed: arguments are modelled as the validated values. Only the conditional presence of `from` and `replyTo` is modelled (`Conforms`).
- `limit` is modelled as an integer; non-integer numbers are not modelled.
- Option values hold integers only (`Num(n: int)`): a non-integer such as `--key 1.5`, and NaN, are not represented, although JavaScript would render `1.5` and treats NaN as falsy. Strings are sequences of Unicode characters, not UTF-16 code units. No modelled behaviour depends on either.
- `parseEmails`, the composer page's own reader of the address inputs (split on runs of commas and whitespace, empty pieces dropped), is not modelled; `CommaList` is only a reference reader for the `", "` join.
- Console logging, `process.exit` and `printHelp` output become outcome values or are left out.
- `Date.now()` in the UI resource URI is a clock and is left out, as are `createUIResource` and `registerResource`.
- The markup, style and browser script of `buildComposerHtml` (`parseEmails`, `handleSubmit`, `postMessage`) are not modelled; the form is its list of inputs with their values.
- The transport and wiring files (`server/http.ts`, `src/server.ts`, `src/index.ts`), `tools/audiences.ts` and `src/cli/help.ts` are outside the core.
- The `replyTo` type checks (index.ts:158-163, tools/emails.ts:172-177) cannot fail for validated arguments, so the model has no such error path.
- EmailTools.ResolveAttachments: `Promise.all` rejects with whichever failing read rejects first in time. The model promises only that the error is that of some failing read, because concurrency is not modelled.
