/** The two HTTP statuses the article checks raise, and their numeric codes
    (section 15.5.1 of RFC 9110 for 400 Bad Request, section 15.5.4 for
    403 Forbidden). */
module Http {

  /** `HttpStatus.BAD_REQUEST` and `HttpStatus.FORBIDDEN` of the framework. */
  datatype Status = BadRequest | Forbidden

  /** The numeric status code sent to the client. Both are in the 4xx
      "client error" class of section 15.5 of RFC 9110. */
  function Code(s: Status): (c: nat)
    ensures 400 <= c <= 499
    ensures s.BadRequest? ==> c == 400
    ensures s.Forbidden? ==> c == 403
  {
    match s
    case BadRequest => 400
    case Forbidden => 403
  }

  /** Distinct statuses give distinct codes, so the client can tell a
      precondition failure from an authorization failure by the code alone. */
  lemma CodeInjective(s: Status, t: Status)
    ensures Code(s) == Code(t) <==> s == t
  {
  }
}
