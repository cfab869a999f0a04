/** The collections the sign-in and verification flows read and write, as one
    immutable store value: users, preferences, pending e-mail verifications,
    the SuspiciousLogin ledger, trusted contexts and issued tokens. Each
    collection is a sequence in insertion order. */
module Database {
  import opened Wrappers
  import opened Sequences
  import opened Fingerprints
  import opened JsObjects
  import opened ObjectIds
  import opened Ledger

  datatype Role = General | Admin

  /** A user document (server/models/user.model.ts); the password is the
      stored hash. */
  datatype User = User(id: ObjectId, email: string, password: string, role: Role, isEmailVerified: bool)

  /** A Preference document: the per-user switch that turns the trust engine
      on. */
  datatype Preference = Preference(user: ObjectId, enableContextBasedAuth: bool)

  /** An Email document: a pending verification code for an address. `purpose`
      is the schema's required `for` field; None when the document was built
      without it. */
  datatype PendingEmail = PendingEmail(email: string, verificationCode: string, messageId: string, purpose: Option<string>)

  /** A Context document: a context the user approved. Field encryption is
      outside the model, so the fields are stored as given. */
  datatype TrustedContext = TrustedContext(user: ObjectId, email: string, fp: Fingerprint, isTrusted: bool)

  /** A Token document recording the tokens issued to a user. */
  datatype TokenRecord = TokenRecord(user: ObjectId)

  datatype Db = Db(
    users: seq<User>,
    preferences: seq<Preference>,
    emails: seq<PendingEmail>,
    ledger: seq<SuspiciousLogin>,
    contexts: seq<TrustedContext>,
    tokens: seq<TokenRecord>)

  /** A Preference document seen as a plain object: it has an owner and the
      switch, and none of the eight fingerprint properties. */
  function PreferenceView(p: Preference): (o: Obj)
    ensures forall f :: FieldKey(f) !in o
  {
    map[UserKey := Oid(p.user), EnableContextBasedAuthKey := Bool(p.enableContextBasedAuth)]
  }

  /** `User.findOne({email})`: the first user with this address. */
  function FindUserByEmail(users: seq<User>, email: string): (r: Option<nat>)
    ensures r.Some? ==> r.value < |users| && users[r.value].email == email
    ensures r.Some? ==> forall j :: 0 <= j < r.value ==> users[j].email != email
    ensures r.None? <==> forall j :: 0 <= j < |users| ==> users[j].email != email
  {
    FindFirst(users, (x: User) => x.email == email)
  }

  /** `Preference.findOne({user, enableContextBasedAuth: true})`: whether the
      user has switched context-based authentication on. */
  predicate ContextAuthEnabled(preferences: seq<Preference>, user: ObjectId) {
    exists i :: 0 <= i < |preferences| && preferences[i].user == user && preferences[i].enableContextBasedAuth
  }

  /** The `required` validators of the Email schema: every string present and
      non-empty, including `for`. */
  predicate EmailSavable(e: PendingEmail) {
    e.email != "" && e.verificationCode != "" && e.messageId != ""
    && e.purpose.Some? && e.purpose.value != ""
  }

  /** The `required` validators of the Context schema. The eight
      fingerprint fields have the `encryptData` setter, so those validators
      see the AES ciphertext, which is never empty even for an empty field;
      the model asks for non-empty plain text instead. The difference cannot
      show: every stored fingerprint comes from `GetCurrentContextData`,
      which is `Complete`. */
  predicate ContextSavable(c: TrustedContext) {
    c.email != "" && Complete(c.fp)
  }

  /** `save()` of a new Email document: rejected when a required field is
      missing or empty, or when the verification code is already taken (the
      schema's unique index); otherwise appended. */
  function InsertEmail(emails: seq<PendingEmail>, e: PendingEmail): (r: Option<seq<PendingEmail>>)
    ensures r.Some? <==> EmailSavable(e) && forall j :: 0 <= j < |emails| ==> emails[j].verificationCode != e.verificationCode
    ensures r.Some? ==> r.value == emails + [e]
  {
    if !EmailSavable(e) then None
    else if exists j :: 0 <= j < |emails| && emails[j].verificationCode == e.verificationCode then None
    else Some(emails + [e])
  }

  /** `Preference.findOne({user})`: the first Preference of the user, enabled
      or not. */
  function FindPreference(preferences: seq<Preference>, user: ObjectId): (r: Option<nat>)
    ensures r.Some? ==> r.value < |preferences| && preferences[r.value].user == user
    ensures r.Some? ==> forall j :: 0 <= j < r.value ==> preferences[j].user != user
    ensures r.None? <==> forall j :: 0 <= j < |preferences| ==> preferences[j].user != user
  {
    FindFirst(preferences, (x: Preference) => x.user == user)
  }

  /** `Context.findOne({user})`: the first context the user approved. */
  function FindContext(contexts: seq<TrustedContext>, user: ObjectId): (r: Option<nat>)
    ensures r.Some? ==> r.value < |contexts| && contexts[r.value].user == user
    ensures r.Some? ==> forall j :: 0 <= j < r.value ==> contexts[j].user != user
    ensures r.None? <==> forall j :: 0 <= j < |contexts| ==> contexts[j].user != user
  {
    FindFirst(contexts, (x: TrustedContext) => x.user == user)
  }

  /** An enabled Preference is in particular a Preference. */
  lemma EnabledHasPreference(preferences: seq<Preference>, user: ObjectId)
    requires ContextAuthEnabled(preferences, user)
    ensures FindPreference(preferences, user).Some?
  {
  }
}
