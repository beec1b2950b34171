/** The failures the core can report, standing for the Go `error` values it returns. */
module Errors {
  import Strconv

  datatype Error =
      /** The HTTP request could not be built, sent or read. */
      Transport(reason: string)
      /** The server answered with a status other than 200. */
    | UnexpectedStatus(code: int)
      /** The body of a 200 answer was not the expected JSON. */
    | Decode(reason: string)
      /** A path segment meant to be a number was not one. */
    | Parse(err: Strconv.NumError)
      /** A link of a kind the bot cannot preview. */
    | NotSupported(message: string)
      /** The Jenkins client library failed. */
    | Remote(message: string)
      /** A list the preview reads its first entry from was empty. */
    | EmptyList(what: string)
}
