/** How a send tool's input schema treats an argument that has a configured
    default: required, optional, or not offered at all. */
module ToolSchema {

  datatype FieldOffer = Required | Optional | NotOffered

  /** The two conditional fields of a send-email schema. */
  datatype SendSchema = SendSchema(from: FieldOffer, replyTo: FieldOffer)

  /** The schema offers `from` (as a required field) exactly when no default
      sender exists, and `replyTo` (as an optional field) exactly when the
      default reply-to list is empty. */
  function ConditionalSchema(hasDefaultSender: bool, defaultRepliers: seq<string>): (schema: SendSchema)
    ensures schema.from == Required <==> !hasDefaultSender
    ensures schema.from == NotOffered <==> hasDefaultSender
    ensures schema.replyTo == Optional <==> defaultRepliers == []
    ensures schema.replyTo == NotOffered <==> defaultRepliers != []
  {
    SendSchema(if hasDefaultSender then NotOffered else Required,
               if defaultRepliers == [] then Optional else NotOffered)
  }
}
