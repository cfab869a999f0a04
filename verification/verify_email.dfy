/** The e-mail verification step (server/middlewares/users/verifyEmail.ts):
    the five-digit code and the link that carries it, the validation of the
    link's query, and `verifyEmail`, the transition that marks the address
    verified, clears its pending codes and creates the Preference that turns
    context-based authentication on. */
module EmailVerification {
  import opened Wrappers
  import opened Strings
  import opened ObjectIds
  import opened Database
  import opened Responses
  import opened Links
  import opened Validators

  // ---------------------------------------------------------------------
  // The code (line 47) and the link (line 48)

  const CodeLength: nat := 5
  const CodeLow: nat := 10000
  const CodeRange: nat := 90000

  function Pow10(k: nat): (p: nat)
    ensures p >= 1
  {
    if k == 0 then 1 else 10 * Pow10(k - 1)
  }

  predicate IsDecimalDigit(c: char) {
    '0' <= c <= '9'
  }

  /** `n.toString()` for a non-negative integer: its decimal digits, without
      leading zeros. */
  function Decimal(n: nat): (s: string)
    ensures |s| >= 1
    ensures forall i :: 0 <= i < |s| ==> IsDecimalDigit(s[i])
  {
    var last := (('0' as int) + n % 10) as char;
    if n < 10 then [last] else Decimal(n / 10) + [last]
  }

  /** The value of a string of decimal digits. */
  function DecimalValue(s: string): nat
    requires forall i :: 0 <= i < |s| ==> IsDecimalDigit(s[i])
  {
    if |s| == 0 then 0
    else
      assert IsDecimalDigit(s[|s| - 1]);
      DecimalValue(s[..|s| - 1]) * 10 + (s[|s| - 1] as int - '0' as int)
  }

  /** Reading the digits back gives the number. */
  lemma {:induction false} DecimalRoundTrip(n: nat)
    ensures DecimalValue(Decimal(n)) == n
  {
    var s := Decimal(n);
    if n >= 10 {
      DecimalRoundTrip(n / 10);
      assert s[..|s| - 1] == Decimal(n / 10);
    }
  }

  /** A number with k digits prints as k characters. */
  lemma {:induction false} DecimalLength(n: nat, k: nat)
    requires k >= 1 && Pow10(k - 1) <= n < Pow10(k)
    ensures |Decimal(n)| == k
  {
    if k > 1 {
      assert Pow10(k - 1) == 10 * Pow10(k - 2);
      DecimalLength(n / 10, k - 1);
    }
  }

  /** `Math.floor(10000 + Math.random() * 90000).toString()`, with the floored
      random part as `draw`: five decimal digits, the value 10000 + draw. */
  function VerificationCode(draw: nat): (code: string)
    requires draw < CodeRange
    ensures |code| == CodeLength
    ensures forall i :: 0 <= i < |code| ==> IsDecimalDigit(code[i])
    ensures DecimalValue(code) == CodeLow + draw
  {
    assert Pow10(4) == CodeLow && Pow10(5) == CodeLow + CodeRange;
    DecimalLength(CodeLow + draw, CodeLength);
    DecimalRoundTrip(CodeLow + draw);
    Decimal(CodeLow + draw)
  }

  /** The query of a verification link; an absent parameter is None. */
  datatype EmailQuery = EmailQuery(code: Option<string>, email: Option<string>)

  /** Lines 21-31: a 422 unless the address is e-mail-shaped (`isEmail`, the
      library's check) and the code has length 5; an absent value validates
      as "". */
  function ValidateEmailQuery(q: EmailQuery, isEmail: string -> bool): (r: Option<Response>)
    ensures r.None? <==> isEmail(q.email.GetOr("")) && HasLength(q.code.GetOr(""), CodeLength, CodeLength)
    ensures r.Some? ==> r.value.Reply? && r.value.status == 422
  {
    if isEmail(q.email.GetOr("")) && HasLength(q.code.GetOr(""), CodeLength, CodeLength) then None
    else Some(Reply(422, "Invalid query"))
  }

  /** A mailed link carries its code and address intact, and its query
      passes validation. */
  lemma MailedCodeValidates(base: string, draw: nat, email: string, isEmail: string -> bool)
    requires draw < CodeRange && isEmail(email)
    ensures var code := VerificationCode(draw);
            && ParseEmailLink(base, EmailLink(base, code, email)) == Some((code, email))
            && ValidateEmailQuery(EmailQuery(Some(code), Some(email)), isEmail).None?
  {
    var code := VerificationCode(draw);
    assert forall i :: 0 <= i < |code| ==> code[i] != '&' && !IsPresentationSelector(code[i]) by {
      forall i | 0 <= i < |code| ensures code[i] != '&' && !IsPresentationSelector(code[i]) {
        assert IsDecimalDigit(code[i]);
      }
    }
    EmailLinkRoundTrip(base, code, email);
  }

  // ---------------------------------------------------------------------
  // verifyEmail (lines 82-127)

  /** The storage calls of the step. The first two run together, and so do
      the last two. */
  datatype EmailCall = FindVerifiedUser | FindCode | UpdateUser | DeleteCodes | SavePreference

  const AlreadyVerified := "Email is already verified"
  const InvalidCode := "Verification code is invalid or has expired"

  /** `User.findOne({email, isEmailVerified: true})` finds something. The
      filter is cast through the User schema, whose `trim` setter
      (server/models/user.model.ts:18) applies to query values too, so the
      caller passes the trimmed address. */
  predicate HasVerifiedUser(users: seq<User>, email: string) {
    exists i :: 0 <= i < |users| && users[i].email == email && users[i].isEmailVerified
  }

  /** `Email.findOne({email, verificationCode: code})` finds something. The
      Email schema has no setter on `email`: the address is compared as
      sent. */
  predicate HasPendingCode(emails: seq<PendingEmail>, email: string, code: string) {
    exists i :: 0 <= i < |emails| && emails[i].email == email && emails[i].verificationCode == code
  }

  /** `Email.deleteMany({email})`: every entry of another address is kept,
      as many times as it occurs; none of this address is. */
  function DeleteCodesOf(emails: seq<PendingEmail>, email: string): (r: seq<PendingEmail>)
    ensures forall e :: e in r <==> e in emails && e.email != email
    ensures forall e :: multiset(r)[e] == if e.email == email then 0 else multiset(emails)[e]
    ensures |r| <= |emails|
  {
    if |emails| == 0 then []
    else
      var rest := DeleteCodesOf(emails[1..], email);
      assert emails == [emails[0]] + emails[1..];
      assert forall e :: e in emails <==> e == emails[0] || e in emails[1..];
      if emails[0].email == email then rest else [emails[0]] + rest
  }

  /** `new Preference({user, enableContextBasedAuth: true}).save()`: rejected
      without a user (required) or when the user already has one (unique). */
  function InsertPreference(preferences: seq<Preference>, user: Option<ObjectId>): (r: Option<seq<Preference>>)
    ensures r.Some? <==> user.Some? && FindPreference(preferences, user.value).None?
    ensures r.Some? ==> r.value == preferences + [Preference(user.value, true)]
  {
    if user.None? || FindPreference(preferences, user.value).Some? then None
    else Some(preferences + [Preference(user.value, true)])
  }

  /** `verifyEmail`: the code and address come from the validated query. A
      fault answers 500 and keeps the writes made before it (and the write
      running beside it). The User filters are cast through the `trim`
      setter, the Email filters are not. */
  function VerifyEmail(db: Db, code: string, email: string, fault: Option<EmailCall>): (out: (Response, Db))
    ensures out.1.ledger == db.ledger && out.1.contexts == db.contexts && out.1.tokens == db.tokens
    ensures out.0 == Next || out.0 == Reply(400, AlreadyVerified) || out.0 == Reply(400, InvalidCode)
            || out.0 == Reply(500, "Internal server error")
    ensures out.0.Reply? && out.0.status == 400 ==> out.1 == db
  {
    VerifyCast(db, code, email, Trim(email), fault)
  }

  /** Lines 89-126 with the User filters already cast: `key` is the address
      the User queries compare, `email` the one the Email queries compare. */
  function VerifyCast(db: Db, code: string, email: string, key: string, fault: Option<EmailCall>): (out: (Response, Db))
    ensures out.1.ledger == db.ledger && out.1.contexts == db.contexts && out.1.tokens == db.tokens
    ensures out.0 == Next || out.0 == Reply(400, AlreadyVerified) || out.0 == Reply(400, InvalidCode)
            || out.0 == Reply(500, "Internal server error")
    ensures out.0.Reply? && out.0.status == 400 ==> out.1 == db
  {
    if fault == Some(FindVerifiedUser) || fault == Some(FindCode) then (Reply(500, "Internal server error"), db)
    else if HasVerifiedUser(db.users, key) then (Reply(400, AlreadyVerified), db)
    else if !HasPendingCode(db.emails, email, code) then (Reply(400, InvalidCode), db)
    else if fault == Some(UpdateUser) then (Reply(500, "Internal server error"), db)
    else Commit(db, email, key, fault)
  }

  /** Lines 107-123, once the code was found: verify the first user with the
      cast address `key` (if any), delete the codes of the address as sent,
      and create the user's Preference; a missing user or a failing write
      answers 500. */
  function Commit(db: Db, email: string, key: string, fault: Option<EmailCall>): (out: (Response, Db))
    ensures out.1.ledger == db.ledger && out.1.contexts == db.contexts && out.1.tokens == db.tokens
    ensures out.0 == Next || out.0 == Reply(500, "Internal server error")
    ensures out.0 == Next ==> FindUserByEmail(db.users, key).Some?
  {
    // findOneAndUpdate: the first user with the address, if any
    var found := FindUserByEmail(db.users, key);
    var users := if found.Some? then db.users[found.value := db.users[found.value].(isEmailVerified := true)] else db.users;
    var owner := if found.Some? then Some(db.users[found.value].id) else None;
    var emails := if fault == Some(DeleteCodes) then db.emails else DeleteCodesOf(db.emails, email);
    var saved := if fault == Some(SavePreference) then None else InsertPreference(db.preferences, owner);
    var preferences := if saved.Some? then saved.value else db.preferences;
    var db' := db.(users := users, emails := emails, preferences := preferences);
    if fault == Some(DeleteCodes) || saved.None? then (Reply(500, "Internal server error"), db')
    else (Next, db')
  }

  /** A verified address is refused whatever the code, before the code is
      looked at; nothing is written. */
  lemma AlreadyVerifiedWins(db: Db, code: string, email: string, fault: Option<EmailCall>)
    requires fault != Some(FindVerifiedUser) && fault != Some(FindCode)
    requires HasVerifiedUser(db.users, Trim(email))
    ensures VerifyEmail(db, code, email, fault) == (Reply(400, AlreadyVerified), db)
  {
  }

  /** An unverified address without that pending code is refused; nothing is
      written. */
  lemma UnknownCodeRefused(db: Db, code: string, email: string, fault: Option<EmailCall>)
    requires fault != Some(FindVerifiedUser) && fault != Some(FindCode)
    requires !HasVerifiedUser(db.users, Trim(email)) && !HasPendingCode(db.emails, email, code)
    ensures VerifyEmail(db, code, email, fault) == (Reply(400, InvalidCode), db)
  {
  }

  /** Success: the user at `i` (the first with the trimmed address) is
      verified, no code of the address is left, and the user now has
      context-based authentication enabled. */
  lemma VerificationEnablesContextAuth(db: Db, code: string, email: string, i: nat)
    requires !HasVerifiedUser(db.users, Trim(email)) && HasPendingCode(db.emails, email, code)
    requires FindUserByEmail(db.users, Trim(email)) == Some(i)
    requires FindPreference(db.preferences, db.users[i].id).None?
    ensures var out := VerifyEmail(db, code, email, None);
            && out.0 == Next
            && out.1.users == db.users[i := db.users[i].(isEmailVerified := true)]
            && (forall e :: e in out.1.emails ==> e.email != email)
            && out.1.preferences == db.preferences + [Preference(db.users[i].id, true)]
            && ContextAuthEnabled(out.1.preferences, db.users[i].id)
  {
    CastVerificationEnablesContextAuth(db, code, email, Trim(email), i);
  }

  /** The lemma above for any cast address. */
  lemma CastVerificationEnablesContextAuth(db: Db, code: string, email: string, key: string, i: nat)
    requires !HasVerifiedUser(db.users, key) && HasPendingCode(db.emails, email, code)
    requires FindUserByEmail(db.users, key) == Some(i)
    requires FindPreference(db.preferences, db.users[i].id).None?
    ensures var out := VerifyCast(db, code, email, key, None);
            && out.0 == Next
            && out.1.users == db.users[i := db.users[i].(isEmailVerified := true)]
            && (forall e :: e in out.1.emails ==> e.email != email)
            && out.1.preferences == db.preferences + [Preference(db.users[i].id, true)]
            && ContextAuthEnabled(out.1.preferences, db.users[i].id)
  {
    var prefs := db.preferences + [Preference(db.users[i].id, true)];
    assert prefs[|prefs| - 1] == Preference(db.users[i].id, true);
  }

  /** After a successful verification the same link is refused as already
      verified. */
  lemma SecondVerificationRefused(db: Db, code: string, email: string, i: nat)
    requires !HasVerifiedUser(db.users, Trim(email)) && HasPendingCode(db.emails, email, code)
    requires FindUserByEmail(db.users, Trim(email)) == Some(i)
    requires FindPreference(db.preferences, db.users[i].id).None?
    ensures var after := VerifyEmail(db, code, email, None).1;
            VerifyEmail(after, code, email, None) == (Reply(400, AlreadyVerified), after)
  {
    VerificationEnablesContextAuth(db, code, email, i);
    var after := VerifyEmail(db, code, email, None).1;
    assert after.users[i].email == Trim(email) && after.users[i].isEmailVerified;
  }

  /** A pending code for an address no user has: the codes are deleted, but
      the Preference has no user and fails validation, so the answer is
      500. */
  lemma OrphanCodeAnswers500(db: Db, code: string, email: string)
    requires !HasVerifiedUser(db.users, Trim(email)) && HasPendingCode(db.emails, email, code)
    requires FindUserByEmail(db.users, Trim(email)).None?
    ensures var out := VerifyEmail(db, code, email, None);
            && out.0 == Reply(500, "Internal server error")
            && out.1 == db.(emails := DeleteCodesOf(db.emails, email))
  {
    CastOrphanCodeAnswers500(db, code, email, Trim(email));
  }

  /** The lemma above for any cast address. */
  lemma CastOrphanCodeAnswers500(db: Db, code: string, email: string, key: string)
    requires !HasVerifiedUser(db.users, key) && HasPendingCode(db.emails, email, code)
    requires FindUserByEmail(db.users, key).None?
    ensures var out := VerifyCast(db, code, email, key, None);
            && out.0 == Reply(500, "Internal server error")
            && out.1 == db.(emails := DeleteCodesOf(db.emails, email))
  {
    assert InsertPreference(db.preferences, None).None?;
  }

  /** Every storage fault answers 500 once its call is reached: the two
      lookups always run, the update and the two writes only after a pending
      code of an unverified address was found. A fault in a lookup or in the
      update writes nothing; a fault in one of the two last writes keeps the
      other one. */
  lemma VerifyEmailFaultAnswers500(db: Db, code: string, email: string, fault: EmailCall)
    requires || fault == FindVerifiedUser || fault == FindCode
             || (!HasVerifiedUser(db.users, Trim(email)) && HasPendingCode(db.emails, email, code))
    ensures VerifyEmail(db, code, email, Some(fault)).0 == Reply(500, "Internal server error")
    ensures fault == FindVerifiedUser || fault == FindCode || fault == UpdateUser ==>
              VerifyEmail(db, code, email, Some(fault)).1 == db
    ensures fault == DeleteCodes ==> VerifyEmail(db, code, email, Some(fault)).1.emails == db.emails
    ensures fault == SavePreference ==>
              && VerifyEmail(db, code, email, Some(fault)).1.preferences == db.preferences
              && VerifyEmail(db, code, email, Some(fault)).1.emails == DeleteCodesOf(db.emails, email)
  {
    if fault == DeleteCodes || fault == SavePreference {
      assert VerifyEmail(db, code, email, Some(fault)) == Commit(db, email, Trim(email), Some(fault));
      CommitWriteFault(db, email, Trim(email), fault);
    }
  }

  /** The two last writes of the step: a fault in one answers 500 and keeps
      the other. */
  lemma CommitWriteFault(db: Db, email: string, key: string, fault: EmailCall)
    requires fault == DeleteCodes || fault == SavePreference
    ensures Commit(db, email, key, Some(fault)).0 == Reply(500, "Internal server error")
    ensures fault == DeleteCodes ==> Commit(db, email, key, Some(fault)).1.emails == db.emails
    ensures fault == SavePreference ==>
              && Commit(db, email, key, Some(fault)).1.preferences == db.preferences
              && Commit(db, email, key, Some(fault)).1.emails == DeleteCodesOf(db.emails, email)
  {
  }
}
