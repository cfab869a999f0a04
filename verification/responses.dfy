/** What a handler does with the request: answer with a status and message,
    issue tokens, or hand the request on to the next handler. */
module Responses {
  import opened ObjectIds
  import opened Engine
  import opened Database

  datatype Response =
    | Reply(status: nat, message: string)
      /** `res.json({accessToken, refreshToken, ..., user})` */
    | TokensIssued(holder: ObjectId, email: string, role: Role)
      /** `next()` from sign-in with `req.mismatchedProps`, `req.currentContextData`
          and `req.user` set: on to the login-verification mail. */
    | ToLoginVerification(mismatchedProps: seq<string>, currentContextData: Snapshot, user: User)
      /** a plain `next()` */
    | Next
  {
    predicate IsError() {
      Reply? && status >= 500
    }
  }
}
