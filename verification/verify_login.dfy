/** The login-verification step (server/middlewares/users/verifyLogin.ts):
    the validation of the callback query, the mail carrying the approve and
    block links, and the two callbacks that resolve a SuspiciousLogin
    document: `verifyLogin` trusts it and records the context, `blockLogin`
    blocks it. */
module LoginCallbacks {
  import opened Wrappers
  import opened Fingerprints
  import opened ObjectIds
  import opened Ledger
  import opened Engine
  import opened Database
  import opened Responses
  import opened Links
  import opened Validators

  /** The query of a callback link; an absent parameter is None. */
  datatype LoginQuery = LoginQuery(id: Option<string>, email: Option<string>)

  /** The storage calls of the callbacks, in order. */
  datatype CallbackCall = FindRecord | SaveContext | UpdateFlags

  const InvalidLink := "Invalid verification link"

  /** Lines 88-92 (and 123-127): the document the link names, if the link is
      valid: the id must cast (else the lookup throws), a document must have
      it, and its e-mail must equal the query's. */
  datatype Lookup = CastFailed | NotFound | Found(index: nat)

  function LookUp(ledger: seq<SuspiciousLogin>, q: LoginQuery): (r: Lookup)
    ensures r.Found? ==>
              && q.id.Some? && CastId(q.id.value).Some?
              && r.index < |ledger|
              && ledger[r.index].id == CastId(q.id.value).value
              && q.email == Some(ledger[r.index].email)
    ensures r.CastFailed? <==> q.id.Some? && CastId(q.id.value).None?
    ensures r.NotFound? ==>
              || q.id.None?
              || FindById(ledger, CastId(q.id.value).value).None?
              || q.email != Some(ledger[FindById(ledger, CastId(q.id.value).value).value].email)
  {
    // findById(undefined) queries for a null _id and finds nothing
    if q.id.None? then NotFound
    else
      match CastId(q.id.value)
      case None => CastFailed
      case Some(id) =>
        match FindById(ledger, id)
        case None => NotFound
        case Some(i) => if q.email != Some(ledger[i].email) then NotFound else Found(i)
  }

  /** `verifyLogin` (lines 84-117): save a Context copying user, e-mail and
      the eight fields of the document, then set `isTrusted=true,
      isBlocked=false` on it. A fault answers 500 and keeps the writes made
      before it. */
  function VerifyLogin(db: Db, q: LoginQuery, fault: Option<CallbackCall>): (out: (Response, Db))
    ensures out.0 == Reply(400, InvalidLink) ==> out.1 == db
    ensures out.1.users == db.users && out.1.preferences == db.preferences
            && out.1.emails == db.emails && out.1.tokens == db.tokens
    ensures out.0 == Reply(200, "Login verified") || out.0 == Reply(400, InvalidLink) || out.0.IsError()
  {
    if fault == Some(FindRecord) then (Reply(500, "Could not verify your login"), db)
    else
      match LookUp(db.ledger, q)
      case CastFailed => (Reply(500, "Could not verify your login"), db)
      case NotFound => (Reply(400, InvalidLink), db)
      case Found(i) =>
        var r := db.ledger[i];
        var c := TrustedContext(r.user, r.email, r.fp, true);
        if fault == Some(SaveContext) || !ContextSavable(c) then (Reply(500, "Could not verify your login"), db)
        else
          var saved := db.(contexts := db.contexts + [c]);
          if fault == Some(UpdateFlags) then (Reply(500, "Could not verify your login"), saved)
          else (Reply(200, "Login verified"), saved.(ledger := UpdateById(db.ledger, r.id, SetFlags(true, false))))
  }

  /** `blockLogin` (lines 119-139): the same guard, then `isBlocked=true,
      isTrusted=false` on the document and nothing else. */
  function BlockLogin(db: Db, q: LoginQuery, fault: Option<CallbackCall>): (out: (Response, Db))
    ensures out.1 == db || out.1 == db.(ledger := out.1.ledger)
    ensures out.0 == Reply(400, InvalidLink) ==> out.1 == db
    ensures out.0 == Reply(200, "Login blocked") || out.0 == Reply(400, InvalidLink) || out.0.IsError()
  {
    if fault == Some(FindRecord) then (Reply(500, "Could not block your login"), db)
    else
      match LookUp(db.ledger, q)
      case CastFailed => (Reply(500, "Could not block your login"), db)
      case NotFound => (Reply(400, InvalidLink), db)
      case Found(i) =>
        if fault == Some(UpdateFlags) then (Reply(500, "Could not block your login"), db)
        else (Reply(200, "Login blocked"), db.(ledger := UpdateById(db.ledger, db.ledger[i].id, SetFlags(false, true))))
  }

  /** The query a mailed link produces. */
  function QueryOf(id: ObjectId, email: string): LoginQuery {
    LoginQuery(Some(IdText(id)), Some(email))
  }

  /** An unknown id, or an e-mail other than the document's, is an invalid
      link and writes nothing, in both callbacks. */
  lemma InvalidLinkWritesNothing(db: Db, id: ObjectId, email: string, fault: Option<CallbackCall>)
    requires fault != Some(FindRecord)
    requires FindById(db.ledger, id).None? || db.ledger[FindById(db.ledger, id).value].email != email
    ensures VerifyLogin(db, QueryOf(id, email), fault) == (Reply(400, InvalidLink), db)
    ensures BlockLogin(db, QueryOf(id, email), fault) == (Reply(400, InvalidLink), db)
  {
    CastIdText(id);
  }

  /** Approving the document at `i` through its own link: one Context is
      appended with the document's user, e-mail and fingerprint (trusted),
      the document becomes trusted and unblocked, and no other document
      changes. */
  lemma ApproveResolvesDocument(db: Db, i: nat)
    requires Invariant(db.ledger) && i < |db.ledger|
    ensures var r := db.ledger[i];
            var out := VerifyLogin(db, QueryOf(r.id, r.email), None);
            && out.0 == Reply(200, "Login verified")
            && out.1.contexts == db.contexts + [TrustedContext(r.user, r.email, r.fp, true)]
            && out.1.ledger == db.ledger[i := r.(isTrusted := true, isBlocked := false)]
  {
    var r := db.ledger[i];
    CastIdText(r.id);
    FindOwnId(db.ledger, i);
  }

  /** Blocking the document at `i` through its own link: it becomes blocked
      and untrusted; nothing else is written. */
  lemma BlockResolvesDocument(db: Db, i: nat)
    requires UniqueIds(db.ledger) && i < |db.ledger|
    ensures var r := db.ledger[i];
            var out := BlockLogin(db, QueryOf(r.id, r.email), None);
            && out.0 == Reply(200, "Login blocked")
            && out.1 == db.(ledger := db.ledger[i := r.(isTrusted := false, isBlocked := true)])
  {
    var r := db.ledger[i];
    CastIdText(r.id);
    FindOwnId(db.ledger, i);
  }

  /** A second approval leaves the flags as the first left them but records
      the context a second time; a second block changes nothing. */
  lemma CallbacksRepeat(db: Db, i: nat)
    requires Invariant(db.ledger) && i < |db.ledger|
    ensures var r := db.ledger[i];
            var once := VerifyLogin(db, QueryOf(r.id, r.email), None).1;
            var twice := VerifyLogin(once, QueryOf(r.id, r.email), None).1;
            && twice.ledger == once.ledger
            && twice.contexts == once.contexts + [TrustedContext(r.user, r.email, r.fp, true)]
    ensures var r := db.ledger[i];
            var once := BlockLogin(db, QueryOf(r.id, r.email), None).1;
            BlockLogin(once, QueryOf(r.id, r.email), None).1 == once
  {
    var r := db.ledger[i];
    ApproveResolvesDocument(db, i);
    var once := VerifyLogin(db, QueryOf(r.id, r.email), None).1;
    UpdatePreservesInvariant(db.ledger, r.id, SetFlags(true, false));
    FindOwnId(db.ledger, i);
    assert once.ledger[i] == r.(isTrusted := true, isBlocked := false);
    ApproveResolvesDocument(once, i);
    assert once.ledger[i := once.ledger[i].(isTrusted := true, isBlocked := false)] == once.ledger;
    BlockResolvesDocument(db, i);
    var blocked := BlockLogin(db, QueryOf(r.id, r.email), None).1;
    UpdatePreservesInvariant(db.ledger, r.id, SetFlags(false, true));
    assert blocked.ledger[i] == r.(isTrusted := false, isBlocked := true);
    BlockResolvesDocument(blocked, i);
    assert blocked.ledger[i := blocked.ledger[i].(isTrusted := false, isBlocked := true)] == blocked.ledger;
  }

  /** Both callbacks write complementary flags, so the collection invariant
      (in particular, never both flags) survives either. */
  lemma CallbacksPreserveInvariant(db: Db, q: LoginQuery, fault: Option<CallbackCall>)
    requires Invariant(db.ledger)
    ensures Invariant(VerifyLogin(db, q, fault).1.ledger)
    ensures Invariant(BlockLogin(db, q, fault).1.ledger)
  {
    match LookUp(db.ledger, q)
    case Found(i) =>
      UpdatePreservesInvariant(db.ledger, db.ledger[i].id, SetFlags(true, false));
      UpdatePreservesInvariant(db.ledger, db.ledger[i].id, SetFlags(false, true));
    case _ =>
  }

  /** A fault in a storage call answers 500 in both callbacks. */
  lemma FaultAnswers500(db: Db, q: LoginQuery)
    ensures VerifyLogin(db, q, Some(FindRecord)).0.IsError()
    ensures BlockLogin(db, q, Some(FindRecord)).0.IsError()
    ensures LookUp(db.ledger, q).Found? ==>
              && VerifyLogin(db, q, Some(SaveContext)) == (Reply(500, "Could not verify your login"), db)
              && VerifyLogin(db, q, Some(UpdateFlags)).0.IsError()
              && BlockLogin(db, q, Some(UpdateFlags)) == (Reply(500, "Could not block your login"), db)
  {
  }

  /** An id that does not cast (24 characters that are not all hex digits
      pass the length rule) throws in the lookup and answers 500. */
  lemma UncastableIdAnswers500(db: Db, q: LoginQuery, fault: Option<CallbackCall>)
    requires q.id.Some? && CastId(q.id.value).None?
    ensures VerifyLogin(db, q, fault).0.IsError() && VerifyLogin(db, q, fault).1 == db
    ensures BlockLogin(db, q, fault).0.IsError() && BlockLogin(db, q, fault).1 == db
  {
  }

  // ---------------------------------------------------------------------
  // Query validation (lines 21-31)

  /** `validationResult(res)`: the chain's result is looked up on the
      response, where the validators never stored it, so it is always
      empty and the handler always continues. `isEmail` is the library's
      e-mail check. */
  function ValidateLoginQueryAsWritten(q: LoginQuery, isEmail: string -> bool): (r: Option<Response>) {
    None
  }

  /** The check the chain declares: a 422 unless the e-mail is e-mail-shaped
      and the id has length 24 (an absent value validates as ""). */
  function ValidateLoginQuery(q: LoginQuery, isEmail: string -> bool): (r: Option<Response>)
    ensures r.None? <==> isEmail(q.email.GetOr("")) && HasLength(q.id.GetOr(""), IdDigits, IdDigits)
    ensures r.Some? ==> r.value.Reply? && r.value.status == 422
  {
    if isEmail(q.email.GetOr("")) && HasLength(q.id.GetOr(""), IdDigits, IdDigits) then None
    else Some(Reply(422, "Invalid query"))
  }

  /** The length rule as written lets through an id of any length: a
      three-character id reaches the lookup. */
  lemma ShortIdPassesAsWritten(isEmail: string -> bool)
    requires isEmail("a@b.co")
    ensures var q := LoginQuery(Some("abc"), Some("a@b.co"));
            && ValidateLoginQueryAsWritten(q, isEmail).None?
            && ValidateLoginQuery(q, isEmail) == Some(Reply(422, "Invalid query"))
  {
    assert ValidatorLength("abc") == 3;
  }

  /** A mailed link always passes the corrected validation and names its
      document. */
  lemma MailedLinkValidates(id: ObjectId, email: string, isEmail: string -> bool)
    requires isEmail(email)
    ensures ValidateLoginQuery(QueryOf(id, email), isEmail).None?
  {
    var s := IdText(id);
    forall i | 0 <= i < |s|
      ensures !IsPresentationSelector(s[i])
    {
      assert IsLowerHexDigit(s[i]);
    }
  }

  // ---------------------------------------------------------------------
  // The verification mail (lines 44-82)

  const SentMessage := "Access blocked due to suspicious activity. Verification email sent to your email address."

  /** The mail handed to the transport: recipient and the two links. */
  datatype Mail = Mail(to: string, approveLink: string, blockLink: string)

  datatype MailCall = SendMail | SaveEmail

  /** What sending the verification produced: the response, the store after
      it, and the mail if it went out. */
  datatype Sending = Sending(response: Response, db: Db, mail: Option<Mail>)

  /** The `verificationCode` of the Email document (line 66): the id's
      text. An undefined id leaves the path unset, which the `required`
      validator treats like the empty string; unlike the links, the
      document never holds the text "undefined". */
  function CodeOf(id: Option<ObjectId>): (code: string)
    ensures code == "" <==> id.None?
    ensures id.Some? ==> CastId(code) == Some(id.value)
  {
    if id.None? then ""
    else
      CastIdText(id.value);
      IdText(id.value)
  }

  /** The Email document recording the sent verification, as written at lines
      64-69: the purpose is passed under the key `forL`, which the schema does
      not know and drops, so the required `for` is missing. */
  function LoginEmailAsWritten(email: string, id: Option<ObjectId>, messageId: string): PendingEmail {
    PendingEmail(email, CodeOf(id), messageId, None)
  }

  /** The same document with its purpose under `for`. */
  function LoginEmail(email: string, id: Option<ObjectId>, messageId: string): PendingEmail {
    PendingEmail(email, CodeOf(id), messageId, Some("login"))
  }

  /** `sendLoginVerification` with a given Email document builder: send the
      mail, save the Email document, answer 401; any failure answers 500.
      The answer is 401 exactly when nothing failed and the document passed
      validation, and then the document is appended; a 500 writes nothing.
      The mail, with both links for the snapshot's id, is out unless
      sending it failed. */
  function SendWith(db: Db, base: string, email: string, snap: Snapshot, messageId: string,
                    fault: Option<MailCall>, doc: PendingEmail): (s: Sending)
    ensures s.response == Reply(401, SentMessage)
            || s.response == Reply(500, "Something went wrong")
    ensures (s.response.Reply? && s.response.status == 401) <==> (fault.None? && InsertEmail(db.emails, doc).Some?)
    ensures s.response.Reply? && s.response.status == 401 ==> s.db == db.(emails := db.emails + [doc])
    ensures s.response.Reply? && s.response.status == 500 ==> s.db == db
    ensures s.mail.Some? <==> fault != Some(SendMail)
    ensures s.mail.Some? ==> s.mail.value == Mail(email, LoginLink(base, snap.id, email), BlockLink(base, snap.id, email))
  {
    var mail := Mail(email, LoginLink(base, snap.id, email), BlockLink(base, snap.id, email));
    if fault == Some(SendMail) then Sending(Reply(500, "Something went wrong"), db, None)
    else if fault.Some? then Sending(Reply(500, "Something went wrong"), db, Some(mail))
    else
      match InsertEmail(db.emails, doc)
      case None => Sending(Reply(500, "Something went wrong"), db, Some(mail))
      case Some(emails) =>
        Sending(Reply(401, SentMessage),
                db.(emails := emails), Some(mail))
  }

  function SendLoginVerificationAsWritten(db: Db, base: string, email: string, snap: Snapshot, messageId: string,
                                          fault: Option<MailCall>): Sending {
    SendWith(db, base, email, snap, messageId, fault, LoginEmailAsWritten(email, snap.id, messageId))
  }

  function SendLoginVerification(db: Db, base: string, email: string, snap: Snapshot, messageId: string,
                                 fault: Option<MailCall>): Sending {
    SendWith(db, base, email, snap, messageId, fault, LoginEmail(email, snap.id, messageId))
  }

  /** As written, the mail goes out with working links but the Email save
      always fails validation: the answer is always 500, never the 401 the
      handler means to send, and nothing is stored. */
  lemma SendAlwaysFailsAsWritten(db: Db, base: string, email: string, id: ObjectId, snap: Snapshot,
                                 messageId: string, fault: Option<MailCall>)
    requires snap.id == Some(id)
    ensures var s := SendLoginVerificationAsWritten(db, base, email, snap, messageId, fault);
            && s.response == Reply(500, "Something went wrong")
            && s.db == db
            && (fault != Some(SendMail) ==>
                  s.mail == Some(Mail(email, LoginLink(base, Some(id), email), BlockLink(base, Some(id), email))))
  {
  }

  /** Without an id the Email document has no code and fails validation:
      the answer is 500 and nothing is stored, even with the purpose under
      `for`. */
  lemma MissingIdAnswers500(db: Db, base: string, email: string, snap: Snapshot, messageId: string,
                            fault: Option<MailCall>)
    requires snap.id.None?
    ensures var s := SendLoginVerification(db, base, email, snap, messageId, fault);
            s.response == Reply(500, "Something went wrong") && s.db == db
  {
    assert !EmailSavable(LoginEmail(email, snap.id, messageId));
  }

  /** With the purpose stored under `for`, the handler answers 401 and
      records exactly one pending verification keyed by the document id,
      whenever the mail goes out, the address and message id are non-empty
      and the code is not taken. */
  lemma SendRecordsVerification(db: Db, base: string, email: string, id: ObjectId, snap: Snapshot, messageId: string)
    requires snap.id == Some(id) && email != "" && messageId != ""
    requires forall j :: 0 <= j < |db.emails| ==> db.emails[j].verificationCode != IdText(id)
    ensures var s := SendLoginVerification(db, base, email, snap, messageId, None);
            && s.response.Reply? && s.response.status == 401
            && s.db == db.(emails := db.emails + [PendingEmail(email, IdText(id), messageId, Some("login"))])
            && s.mail == Some(Mail(email, LoginLink(base, Some(id), email), BlockLink(base, Some(id), email)))
  {
    var doc := LoginEmail(email, snap.id, messageId);
    assert doc == PendingEmail(email, IdText(id), messageId, Some("login"));
    assert EmailSavable(doc);
    assert InsertEmail(db.emails, doc) == Some(db.emails + [doc]);
  }
}
