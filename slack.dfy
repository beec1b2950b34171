/** The parts of the chat platform's message-attachment record (`slack.Attachment` of the
    slack-go library) that the previews fill in. */
module Slack {

  /** A labelled value shown in the attachment; `short` asks for a half-width column. */
  datatype AttachmentField = AttachmentField(title: string, value: string, short: bool)

  /** A button: `kind` is the library's `Type` field. */
  datatype AttachmentAction = AttachmentAction(name: string, text: string, kind: string, url: string)

  datatype Attachment = Attachment(
    title: string,
    titleLink: string,
    authorName: string,
    authorID: string,
    authorLink: string,
    text: string,
    footer: string,
    footerIcon: string,
    ts: string,
    callbackID: string,
    fields: seq<AttachmentField>,
    actions: seq<AttachmentAction>)

  /** `slack.Attachment{}`: every field at its zero value. */
  const EmptyAttachment := Attachment("", "", "", "", "", "", "", "", "", "", [], [])
}
