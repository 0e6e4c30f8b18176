/** What one call to the hosted generative model can come to. The service
    itself is a parameter of every operation that calls it: a function from
    the request to one of these outcomes. */
module Service {

  datatype Attempt =
    /** The call settled and `response.text()` returned this text. */
    | Replied(text: string)
    /** The call settled but reading its text threw (a blocked or empty
        candidate). */
    | Unreadable
    /** The call rejected: a transport or service error, or, where the call
        is raced against a timer, the timer firing first. */
    | Rejected
}
