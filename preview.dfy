/** What a link-preview handler hands back to the dispatch loop. */
module Preview {
  import opened Wrappers
  import opened Slack
  import opened Errors

  /** The attachment, the error (`None` for Go's `nil`) and the requests made to the remote
      service, in the order they were made. */
  datatype Outcome = Outcome(attachment: Attachment, err: Option<Error>, calls: seq<string>)

  /** A failed preview: the empty attachment beside the error. */
  function Fail(e: Error, calls: seq<string>): (o: Outcome)
    ensures o.err == Some(e) && o.attachment == EmptyAttachment && o.calls == calls
  {
    Outcome(EmptyAttachment, Some(e), calls)
  }

  /** Whenever an error is returned, the attachment beside it is the empty one. */
  predicate ErrorsCarryNothing(o: Outcome)
  {
    o.err.Some? ==> o.attachment == EmptyAttachment
  }

  /** How running code as written ends: it returns, or it panics (an index out of range). */
  datatype Run = Returned(outcome: Outcome) | Panicked(what: string)
}
