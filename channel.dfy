/**
 * Replies that the widgets receive from asynchronous requests (the background
 * message channel, the profile fetchers, the calendar dialog), once settled.
 * The request side is not modelled: each reply is passed to the callback
 * method that handles it.
 */
module Channel {

  /**
   * The error a failed request settles with, as the errbacks classify it:
   * `null`, an error whose `name` is the host-permission error name, or any
   * other error (`text` is what `String(e)` gives).
   */
  datatype ErrorValue = NullError | HostPermission | OtherError(text: string)

  /** A settled Deferred: its callback or its errback runs. */
  datatype Reply<+T> = Succeeded(value: T) | Failed(error: ErrorValue)

  /** `String(e)` for an error that is not the host-permission error. */
  function ErrorText(e: ErrorValue): string
    requires !e.HostPermission?
  {
    match e
    case NullError => "null"
    case OtherError(text) => text
  }
}
