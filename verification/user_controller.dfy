/** Sign-up and sign-in (server/controllers/user.controller.ts): the role an
    address earns, the consent branch of sign-up, and the sign-in handler
    with its credential checks, the switch that turns the trust engine on,
    and the dispatch of the engine's outcome to a refusal, the login
    verification or the tokens. Password hashing and comparison (bcrypt) and
    token signing are outside the model: the comparison is an input and the
    hash is the stored string. */
module UserController {
  import opened Wrappers
  import opened Strings
  import opened Fingerprints
  import opened JsObjects
  import opened ObjectIds
  import opened Ledger
  import opened Engine
  import opened Database
  import opened Responses
  import opened Links
  import opened EngineProperties
  import opened EmailVerification

  // ---------------------------------------------------------------------
  // Sign-up (lines 62-105)

  const CompanyDomain := "soyummy.com"

  /** Lines 73-74: "admin" when the piece after the first '@' (and before
      the next) is the company domain. */
  function RoleFor(email: string): Role {
    var parts := Split(email, '@');
    if |parts| >= 2 && parts[1] == CompanyDomain then Admin else General
  }

  /** The same rule read directly off the address: there is an '@', and what
      follows the first one is the domain, alone or followed by another
      '@'. */
  predicate HasCompanyDomain(email: string) {
    match IndexOf(email, '@')
    case None => false
    case Some(i) =>
      var rest := email[i + 1..];
      rest == CompanyDomain || (|rest| > |CompanyDomain| && rest[..|CompanyDomain|] == CompanyDomain && rest[|CompanyDomain|] == '@')
  }

  /** The domain has no '@' of its own. */
  lemma DomainHasNoAt()
    ensures '@' !in CompanyDomain
  {
    assert forall k :: 0 <= k < |CompanyDomain| ==> CompanyDomain[k] != '@';
  }

  /** The first piece `Split` gives is everything up to the first separator. */
  lemma FirstPiece(s: string)
    ensures IndexOf(s, '@').None? ==> Split(s, '@')[0] == s
    ensures IndexOf(s, '@').Some? ==> Split(s, '@')[0] == s[..IndexOf(s, '@').value]
  {
    match IndexOf(s, '@')
    case None =>
      SplitWithoutSeparator(s, '@');
    case Some(j) =>
      assert s == s[..j] + ['@'] + s[j + 1..];
      SplitAtFirst(s[..j], s[j + 1..], '@');
  }

  /** The second piece is the first piece of what follows the first
      separator. */
  lemma SecondPiece(s: string, i: nat)
    requires IndexOf(s, '@') == Some(i)
    ensures |Split(s, '@')| >= 2 && Split(s, '@')[1] == Split(s[i + 1..], '@')[0]
  {
    assert s == s[..i] + ['@'] + s[i + 1..];
    SplitAtFirst(s[..i], s[i + 1..], '@');
  }

  /** The text up to the first '@' of `rest` is the domain exactly when `rest`
      is the domain, alone or followed by an '@'. */
  lemma FirstPieceIsDomain(rest: string)
    ensures Split(rest, '@')[0] == CompanyDomain <==>
              rest == CompanyDomain || (|rest| > |CompanyDomain| && rest[..|CompanyDomain|] == CompanyDomain && rest[|CompanyDomain|] == '@')
  {
    var n := |CompanyDomain|;
    FirstPiece(rest);
    DomainHasNoAt();
    match IndexOf(rest, '@')
    case None =>
    case Some(j) =>
      assert rest[j] == '@';
  }

  /** An address is given the admin role exactly when it has the company
      domain after its first '@'. */
  lemma AdminIffCompanyDomain(email: string)
    ensures RoleFor(email) == Admin <==> HasCompanyDomain(email)
  {
    match IndexOf(email, '@')
    case None =>
      SplitWithoutSeparator(email, '@');
    case Some(i) =>
      var rest := email[i + 1..];
      SecondPiece(email, i);
      FirstPieceIsDomain(rest);
      assert RoleFor(email) == Admin <==> Split(rest, '@')[0] == CompanyDomain;
  }

  /** Any local part at the company domain makes an admin. */
  lemma CompanyAddressIsAdmin(local: string)
    requires '@' !in local
    ensures RoleFor(local + "@" + CompanyDomain) == Admin
  {
    DomainHasNoAt();
    SplitWithoutSeparator(CompanyDomain, '@');
    SplitAtFirst(local, CompanyDomain, '@');
  }

  /** A subdomain of the company domain does not. */
  lemma SubdomainAddressIsGeneral(local: string, sub: string)
    requires '@' !in local && '@' !in sub
    ensures RoleFor(local + "@" + sub + "." + CompanyDomain) == General
  {
    DomainHasNoAt();
    var d := sub + "." + CompanyDomain;
    SplitWithoutSeparator(d, '@');
    SplitAtFirst(local, d, '@');
    assert local + "@" + sub + "." + CompanyDomain == local + ['@'] + d;
    assert |d| > |CompanyDomain|;
  }

  /** `new User({...}).save()`: rejected when a required string is empty,
      when the (trimmed) address is taken (unique index), or when the id is;
      otherwise appended. */
  function InsertUser(users: seq<User>, u: User): (r: Option<seq<User>>)
    ensures r.Some? <==>
              && u.email != "" && u.password != ""
              && forall j :: 0 <= j < |users| ==> users[j].email != u.email && users[j].id != u.id
    ensures r.Some? ==> r.value == users + [u]
  {
    if u.email == "" || u.password == "" then None
    else if exists j :: 0 <= j < |users| && (users[j].email == u.email || users[j].id == u.id) then None
    else Some(users + [u])
  }

  /** `signup`: the stored address is trimmed (schema option), the role is
      derived from the address as sent, and `isEmailVerified` is the
      consent. A failed save answers 400; without consent the answer is 201,
      with consent the request goes on (to the verification mail). */
  function Signup(db: Db, email: string, passwordHash: string, consent: bool, newId: ObjectId, saveFails: bool): (out: (Response, Db))
    ensures out.0 == Reply(400, "Failed to add user") <==>
              saveFails || InsertUser(db.users, User(newId, Trim(email), passwordHash, RoleFor(email), consent)).None?
    ensures out.0 == Reply(400, "Failed to add user") ==> out.1 == db
    ensures out.0 != Reply(400, "Failed to add user") ==>
              && out.1 == db.(users := db.users + [User(newId, Trim(email), passwordHash, RoleFor(email), consent)])
              && (out.0 == Reply(201, "User added successfully.") <==> !consent)
              && (out.0 == Next <==> consent)
  {
    var u := User(newId, Trim(email), passwordHash, RoleFor(email), consent);
    if saveFails then (Reply(400, "Failed to add user"), db)
    else
      match InsertUser(db.users, u)
      case None => (Reply(400, "Failed to add user"), db)
      case Some(users) =>
        var db' := db.(users := users);
        if !consent then (Reply(201, "User added successfully."), db') else (Next, db')
  }

  /** With consent the user is stored already verified, so the verification
      link, with the address as signed up, answers "already verified" and
      never creates the Preference that would turn context-based
      authentication on. */
  lemma ConsentSkipsVerification(db: Db, email: string, passwordHash: string, newId: ObjectId, code: string)
    requires Signup(db, email, passwordHash, true, newId, false).0 == Next
    ensures var after := Signup(db, email, passwordHash, true, newId, false).1;
            VerifyEmail(after, code, email, None) == (Reply(400, AlreadyVerified), after)
  {
    var after := Signup(db, email, passwordHash, true, newId, false).1;
    var k := |db.users|;
    assert after.users[k].email == Trim(email) && after.users[k].isEmailVerified;
    AlreadyVerifiedWins(after, code, email, None);
  }

  // ---------------------------------------------------------------------
  // Sign-in (lines 114-291)

  /** How one line of the source is read: as written, or as evidently
      meant. */
  datatype Variant = AsWritten | Intended

  /** The readings of the two lines sign-in depends on: where the engine
      reads its baseline (line 82 of server/controllers/auth.controller.ts)
      and the property list of the mismatch branch (lines 230-239). */
  datatype Reading = Reading(baseline: Variant, routing: Variant)

  const AsWrittenReading := Reading(AsWritten, AsWritten)
  const IntendedReading := Reading(Intended, Intended)

  /** The storage calls of sign-in. */
  datatype SigninCall = FindUser | FindEnabledPreference | InEngine(call: Call) | SaveToken

  const BlockedMessage := "You've been blocked due to suspicious login activity. Please contact support for assistance."
  const VerifyErrorMessage := "Error occurred while verifying context data."
  const SuspiciousMessage := "You've temporarily been blocked due to suspicious login activity."

  /** Lines 230-239 as written: "deviceType" is misspelt. */
  const RoutedPropsAsWritten: seq<string> := ["ip", "country", "city", "device", "deviceLOG_TYPE", "os", "platform", "browser"]

  /** The list with the property spelt as the engine reports it. */
  const RoutedPropsIntended: seq<string> := ["ip", "country", "city", "device", "deviceType", "os", "platform", "browser"]

  function RoutedProps(v: Variant): seq<string> {
    if v == AsWritten then RoutedPropsAsWritten else RoutedPropsIntended
  }

  /** Line 82 of server/controllers/auth.controller.ts as written: the
      baseline is the user's Preference document, which has none of the
      eight fields. */
  function BaselineAsWritten(db: Db, user: ObjectId): (b: Option<Obj>)
    ensures b.Some? <==> FindPreference(db.preferences, user).Some?
    ensures b.Some? ==> forall f :: Prop(b.value, FieldKey(f)) == Undefined
  {
    match FindPreference(db.preferences, user)
    case None => None
    case Some(i) => Some(PreferenceView(db.preferences[i]))
  }

  /** The baseline read from the user's first approved Context, the document
      that has the eight fields: there is one exactly when the user has an
      approved Context, and then every field is a string, copied from the
      earliest such Context. */
  function BaselineIntended(db: Db, user: ObjectId): (b: Option<Obj>)
    ensures b.Some? <==> exists j :: 0 <= j < |db.contexts| && db.contexts[j].user == user
    ensures b.Some? ==> forall f :: Prop(b.value, FieldKey(f)).Str?
    ensures b.Some? ==> exists j :: 0 <= j < |db.contexts| && db.contexts[j].user == user
                          && (forall k :: 0 <= k < j ==> db.contexts[k].user != user)
                          && forall f :: Prop(b.value, FieldKey(f)) == Str(Get(db.contexts[j].fp, f))
  {
    match FindContext(db.contexts, user)
    case None => None
    case Some(i) => Some(ContextView(db.contexts[i].fp))
  }

  function Baseline(v: Variant, db: Db, user: ObjectId): Option<Obj> {
    if v == AsWritten then BaselineAsWritten(db, user) else BaselineIntended(db, user)
  }

  /** What the handler does with an outcome of the engine. */
  datatype Verdict = Deny(status: nat, message: string) | Verify(props: seq<string>, snap: Snapshot) | Issue

  /** Lines 173-249: the dispatch. A mismatch goes to the verification step
      only when one of its properties is in the routing list; otherwise it
      falls through to the tokens, as MATCH does. */
  function Dispatch(o: Outcome, routed: seq<string>): (v: Verdict)
    ensures v.Deny? <==> o.Blocked? || o.NoContextData? || o.Error? || o.Suspicious?
    ensures v.Deny? ==> (v.status == 500 <==> o.NoContextData? || o.Error?)
    ensures v.Deny? ==> (v.status == 403 <==> o.Blocked? || o.Suspicious?)
    ensures v.Verify? <==> o.Mismatch? && exists p :: p in o.mismatchedProps && p in routed
    ensures v.Verify? ==> v.props == o.mismatchedProps && v.snap == o.currentContextData
  {
    match o
    case Blocked => Deny(403, BlockedMessage)
    case NoContextData => Deny(500, VerifyErrorMessage)
    case Error => Deny(500, VerifyErrorMessage)
    case Suspicious => Deny(403, SuspiciousMessage)
    case Mismatch(props, snap) =>
      if exists p :: p in props && p in routed then Verify(props, snap) else Issue
    case Match => Issue
  }

  /** Lines 251-278: save a Token document and answer with the tokens. */
  function IssueTokens(db: Db, u: User, fault: Option<SigninCall>): (out: (Response, Db)) {
    if fault == Some(SaveToken) then (Reply(500, "Something went wrong"), db)
    else (TokensIssued(u.id, u.email, u.role), db.(tokens := db.tokens + [TokenRecord(u.id)]))
  }

  /** The engine's fault, if the failing call is one of its own. */
  function EngineFault(fault: Option<SigninCall>): Option<Call> {
    if fault.Some? && fault.value.InEngine? then Some(fault.value.call) else None
  }

  /** `signin`. `passwordOk` is the bcrypt comparison; `current`, `newId` and
      `now` are what the engine reads off the request and the store. The
      body's validation result is ignored by the handler and so is not an
      input. Mongoose casts the `findOne` filter through the schema's `trim`
      setter, so the user is looked up by the trimmed address. */
  function Signin(v: Reading, db: Db, email: string, passwordOk: bool, current: Fingerprint,
                  newId: ObjectId, now: nat, fault: Option<SigninCall>): (out: (Response, Db))
    ensures out.1.users == db.users && out.1.preferences == db.preferences
            && out.1.emails == db.emails && out.1.contexts == db.contexts
    ensures out.0.TokensIssued? ==> |out.1.tokens| == |db.tokens| + 1
    ensures !out.0.TokensIssued? ==> out.1.tokens == db.tokens
  {
    Authenticate(v, db, Trim(email), passwordOk, current, newId, now, fault)
  }

  /** Lines 130-291 with the filter already cast: find the user by `key`,
      check the password, then either issue the tokens or consult the
      engine. */
  function Authenticate(v: Reading, db: Db, key: string, passwordOk: bool, current: Fingerprint,
                        newId: ObjectId, now: nat, fault: Option<SigninCall>): (out: (Response, Db))
    ensures out.1.users == db.users && out.1.preferences == db.preferences
            && out.1.emails == db.emails && out.1.contexts == db.contexts
    ensures out.0.TokensIssued? ==> |out.1.tokens| == |db.tokens| + 1
    ensures !out.0.TokensIssued? ==> out.1.tokens == db.tokens
  {
    if fault == Some(FindUser) then (Reply(500, "Something went wrong"), db)
    else
      match FindUserByEmail(db.users, key)
      case None => (Reply(404, "Invalid credentials"), db)
      case Some(i) =>
        var u := db.users[i];
        if !passwordOk then (Reply(400, "Invalid credentials"), db)
        else if fault == Some(FindEnabledPreference) then (Reply(500, "Something went wrong"), db)
        else if !ContextAuthEnabled(db.preferences, u.id) then IssueTokens(db, u, fault)
        else Consulted(v, db, u, current, newId, now, fault)
  }

  /** Lines 172-249: run the engine for an enabled user, keep its writes to
      the ledger, and answer according to the dispatch. */
  function Consulted(v: Reading, db: Db, u: User, current: Fingerprint,
                     newId: ObjectId, now: nat, fault: Option<SigninCall>): (out: (Response, Db))
    ensures out.1.users == db.users && out.1.preferences == db.preferences
            && out.1.emails == db.emails && out.1.contexts == db.contexts
    ensures out.0.TokensIssued? ==> out.1.tokens == db.tokens + [TokenRecord(u.id)]
    ensures !out.0.TokensIssued? ==> out.1.tokens == db.tokens
  {
    var d := VerifyContextData(db.ledger, u.id, u.email, Baseline(v.baseline, db, u.id), current, newId, now, EngineFault(fault));
    Answer(db.(ledger := d.ledger), u, Dispatch(d.outcome, RoutedProps(v.routing)), fault)
  }

  /** The answer to a verdict: only issuing tokens writes, one Token
      document. */
  function Answer(db: Db, u: User, verdict: Verdict, fault: Option<SigninCall>): (out: (Response, Db))
    ensures out.1.tokens == db.tokens + [TokenRecord(u.id)] <==> out.0.TokensIssued?
    ensures out.1 == db || out.1 == db.(tokens := db.tokens + [TokenRecord(u.id)])
  {
    match verdict
    case Deny(status, message) => (Reply(status, message), db)
    case Verify(props, snap) => (ToLoginVerification(props, snap, u), db)
    case Issue => IssueTokens(db, u, fault)
  }

  /** Past the credentials, a user with context-based authentication on is
      handed to the engine. */
  lemma EnabledUserConsulted(v: Reading, db: Db, email: string, current: Fingerprint, newId: ObjectId, now: nat, i: nat)
    requires FindUserByEmail(db.users, Trim(email)) == Some(i)
    requires ContextAuthEnabled(db.preferences, db.users[i].id)
    ensures Signin(v, db, email, true, current, newId, now, None) == Consulted(v, db, db.users[i], current, newId, now, None)
  {
    AuthenticateConsults(v, db, Trim(email), current, newId, now, i);
  }

  /** The same with the filter already cast. */
  lemma AuthenticateConsults(v: Reading, db: Db, key: string, current: Fingerprint, newId: ObjectId, now: nat, i: nat)
    requires FindUserByEmail(db.users, key) == Some(i)
    requires ContextAuthEnabled(db.preferences, db.users[i].id)
    ensures Authenticate(v, db, key, true, current, newId, now, None) == Consulted(v, db, db.users[i], current, newId, now, None)
  {
  }

  /** Mongoose casts the `findOne` filter through the schema's `trim`
      setter, and the handler ignores the validation error, so an address
      with surrounding whitespace signs in exactly as the trimmed one. */
  lemma PaddedAddressSignsIn(v: Reading, db: Db, email: string, passwordOk: bool, current: Fingerprint,
                               newId: ObjectId, now: nat, fault: Option<SigninCall>)
    ensures Signin(v, db, email, passwordOk, current, newId, now, fault)
              == Signin(v, db, Trim(email), passwordOk, current, newId, now, fault)
  {
    TrimIdempotent(email);
  }

  /** An unknown address answers 404 and a wrong password 400, before
      anything else is read or written. */
  lemma CredentialsCheckedFirst(v: Reading, db: Db, email: string, passwordOk: bool, current: Fingerprint,
                                newId: ObjectId, now: nat, fault: Option<SigninCall>)
    requires fault != Some(FindUser)
    ensures FindUserByEmail(db.users, Trim(email)).None? ==>
              Signin(v, db, email, passwordOk, current, newId, now, fault) == (Reply(404, "Invalid credentials"), db)
    ensures FindUserByEmail(db.users, Trim(email)).Some? && !passwordOk ==>
              Signin(v, db, email, passwordOk, current, newId, now, fault) == (Reply(400, "Invalid credentials"), db)
  {
  }

  /** A rejected storage call answers 500 with the store unchanged: the user
      lookup, the Preference lookup past the credentials, and the Token save
      of a user whose context is not checked. */
  lemma StorageFaultAnswers500(v: Reading, db: Db, email: string, current: Fingerprint, newId: ObjectId, now: nat)
    ensures Signin(v, db, email, true, current, newId, now, Some(FindUser)) == (Reply(500, "Something went wrong"), db)
    ensures FindUserByEmail(db.users, Trim(email)).Some? ==>
              Signin(v, db, email, true, current, newId, now, Some(FindEnabledPreference)) == (Reply(500, "Something went wrong"), db)
    ensures FindUserByEmail(db.users, Trim(email)).Some? &&
            !ContextAuthEnabled(db.preferences, db.users[FindUserByEmail(db.users, Trim(email)).value].id) ==>
              Signin(v, db, email, true, current, newId, now, Some(SaveToken)) == (Reply(500, "Something went wrong"), db)
  {
  }

  /** Without an enabled Preference the engine is not consulted: the tokens
      are issued and the ledger is not touched. */
  lemma DisabledUserGetsTokens(v: Reading, db: Db, email: string, current: Fingerprint, newId: ObjectId, now: nat, i: nat)
    requires FindUserByEmail(db.users, Trim(email)) == Some(i)
    requires !ContextAuthEnabled(db.preferences, db.users[i].id)
    ensures var u := db.users[i];
            Signin(v, db, email, true, current, newId, now, None)
              == (TokensIssued(u.id, u.email, u.role), db.(tokens := db.tokens + [TokenRecord(u.id)]))
  {
  }

  /** The reported property names the engine can produce. */
  predicate Reportable(props: seq<string>) {
    forall p :: p in props ==> p in Names(ReportedFields)
  }

  /** The names of the reported fields, in order. */
  lemma ReportedNames()
    ensures Names(ReportedFields) == ["ip", "browser", "device", "deviceType", "country", "city"]
  {
  }

  /** As written, a mismatch reaches the verification step exactly when it
      names a property other than "deviceType". */
  lemma RoutingAsWritten(props: seq<string>, snap: Snapshot)
    requires Reportable(props)
    ensures Dispatch(Mismatch(props, snap), RoutedPropsAsWritten).Verify? <==> exists p :: p in props && p != "deviceType"
  {
    ReportedNames();
    if exists p :: p in props && p != "deviceType" {
      var p :| p in props && p != "deviceType";
      assert p in RoutedPropsAsWritten;
    }
  }

  /** The counterexample: a change of device type alone gets tokens as
      written, and reaches the verification step with the intended list. */
  lemma DeviceTypeOnlyMismatchIssuesTokens(snap: Snapshot)
    ensures Dispatch(Mismatch(["deviceType"], snap), RoutedPropsAsWritten) == Issue
    ensures Dispatch(Mismatch(["deviceType"], snap), RoutedPropsIntended) == Verify(["deviceType"], snap)
  {
    assert "deviceType" in RoutedPropsIntended;
  }

  /** With the intended list every mismatch the engine reports reaches the
      verification step. */
  lemma IntendedRoutingVerifiesEveryMismatch(props: seq<string>, snap: Snapshot)
    requires Reportable(props) && props != []
    ensures Dispatch(Mismatch(props, snap), RoutedPropsIntended) == Verify(props, snap)
  {
    ReportedNames();
    assert props[0] in props && props[0] in RoutedPropsIntended;
  }

  /** The engine's reports are reportable. */
  lemma MismatchedPropsReportable(user: Obj, fp: Fingerprint)
    ensures Reportable(MismatchedProps(user, fp))
  {
    var props := MismatchedProps(user, fp);
    var fs :| props == Names(fs) && Ranked(fs);
    NamesListed(ReportedFields);
    forall p | p in props
      ensures p in Names(ReportedFields)
    {
      var k :| 0 <= k < |props| && props[k] == p;
      assert Name(fs[k]) in props;
    }
  }

  /** When every field of `fields` differs, all of them are kept. */
  lemma {:induction false} AllDiffer(user: Obj, fp: Fingerprint, fields: seq<Field>)
    requires forall k :: 0 <= k < |fields| ==> Differs(user, fp, fields[k])
    ensures DifferingFields(user, fp, fields) == fields
  {
    if |fields| > 0 {
      AllDiffer(user, fp, fields[1..]);
      assert [fields[0]] + fields[1..] == fields;
    }
  }

  /** Line 82 of server/controllers/auth.controller.ts as written: against a
      Preference baseline no context is ever a trusted device, and every one
      of the six reported properties counts as changed. */
  lemma PreferenceBaselineNeverTrusts(p: Preference, current: Fingerprint)
    ensures !IsTrustedDevice(ContextView(current), UserContextData(PreferenceView(p)))
    ensures MismatchedProps(UserContextData(PreferenceView(p)), current) == ["ip", "browser", "device", "deviceType", "country", "city"]
  {
    var u := UserContextData(PreferenceView(p));
    assert Prop(u, FieldKey(Ip)) != Prop(ContextView(current), FieldKey(Ip));
    AllDiffer(u, current, ReportedFields);
    ReportedNames();
  }

  // ---------------------------------------------------------------------
  // Sign-in end to end

  const AllReported: seq<string> := ["ip", "browser", "device", "deviceType", "country", "city"]

  /** As written, a user with context-based authentication on is sent to the
      login verification on every sign-in from a context the ledger has not
      seen, with all six properties reported, whatever the context is: even
      the very context the user approved before. */
  lemma EnabledUserAlwaysChallengedAsWritten(db: Db, email: string, current: Fingerprint, newId: ObjectId, now: nat, i: nat)
    requires FindUserByEmail(db.users, Trim(email)) == Some(i)
    requires ContextAuthEnabled(db.preferences, db.users[i].id)
    requires FindByContext(db.ledger, db.users[i].id, current).None?
    requires Insert(db.ledger, NewSuspiciousLogin(newId, db.users[i].id, db.users[i].email, current, now)).Some?
    ensures var u := db.users[i];
            Signin(AsWrittenReading, db, email, true, current, newId, now, None)
              == (ToLoginVerification(AllReported, Snapshot(now, Some(newId), current), u),
                  db.(ledger := db.ledger + [SuspiciousLogin(newId, u.id, u.email, current, 0, false, false, now)]))
  {
    EnabledUserConsulted(AsWrittenReading, db, email, current, newId, now, i);
    PreferenceBaselineChallenges(db, db.users[i], current, newId, now);
  }

  /** The engine half of the lemma above: with the Preference as baseline,
      an unseen context is recorded and sent to the login verification with
      all six properties. */
  lemma PreferenceBaselineChallenges(db: Db, u: User, current: Fingerprint, newId: ObjectId, now: nat)
    requires ContextAuthEnabled(db.preferences, u.id)
    requires FindByContext(db.ledger, u.id, current).None?
    requires Insert(db.ledger, NewSuspiciousLogin(newId, u.id, u.email, current, now)).Some?
    ensures Consulted(AsWrittenReading, db, u, current, newId, now, None)
              == (ToLoginVerification(AllReported, Snapshot(now, Some(newId), current), u),
                  db.(ledger := db.ledger + [SuspiciousLogin(newId, u.id, u.email, current, 0, false, false, now)]))
  {
    EnabledHasPreference(db.preferences, u.id);
    var p := db.preferences[FindPreference(db.preferences, u.id).value];
    PreferenceBaselineNeverTrusts(p, current);
    UnseenContextRecorded(db.ledger, u.id, u.email, Some(PreferenceView(p)), current, newId, now);
    var snap := Snapshot(now, Some(newId), current);
    assert "ip" in AllReported && "ip" in RoutedPropsAsWritten;
    assert Dispatch(Mismatch(AllReported, snap), RoutedPropsAsWritten) == Verify(AllReported, snap);
  }

  /** Read from the user's first approved Context, the baseline trusts that
      context: signing in from it issues the tokens and leaves the ledger
      alone, whichever property list is used. */
  lemma ApprovedContextGetsTokens(routing: Variant, db: Db, email: string, newId: ObjectId, now: nat, i: nat, k: nat)
    requires FindUserByEmail(db.users, Trim(email)) == Some(i)
    requires ContextAuthEnabled(db.preferences, db.users[i].id)
    requires FindContext(db.contexts, db.users[i].id) == Some(k)
    ensures var u := db.users[i];
            Signin(Reading(Intended, routing), db, email, true, db.contexts[k].fp, newId, now, None)
              == (TokensIssued(u.id, u.email, u.role), db.(tokens := db.tokens + [TokenRecord(u.id)]))
  {
    EnabledUserConsulted(Reading(Intended, routing), db, email, db.contexts[k].fp, newId, now, i);
    ApprovedContextConsulted(routing, db, db.users[i], newId, now, k);
  }

  /** The engine half of the lemma above: the approved context matches its
      own baseline, so the engine writes nothing and the tokens are issued. */
  lemma ApprovedContextConsulted(routing: Variant, db: Db, u: User, newId: ObjectId, now: nat, k: nat)
    requires FindContext(db.contexts, u.id) == Some(k)
    ensures Consulted(Reading(Intended, routing), db, u, db.contexts[k].fp, newId, now, None)
              == (TokensIssued(u.id, u.email, u.role), db.(tokens := db.tokens + [TokenRecord(u.id)]))
  {
    MatchingBaselineGivesMatch(db.ledger, u.id, u.email, db.contexts[k].fp, newId, now, None);
  }

  /** With the baseline read from the approved Context, a context the
      ledger has not seen is recorded, and the answer follows the dispatch of
      the reported properties that changed. */
  lemma UnseenContextIntended(routing: Variant, db: Db, u: User, current: Fingerprint, newId: ObjectId, now: nat, k: nat)
    requires FindContext(db.contexts, u.id) == Some(k) && db.contexts[k].fp != current
    requires FindByContext(db.ledger, u.id, current).None?
    requires Insert(db.ledger, NewSuspiciousLogin(newId, u.id, u.email, current, now)).Some?
    ensures var props := MismatchedProps(UserContextData(ContextView(db.contexts[k].fp)), current);
            var outcome := if props == [] then Match else Mismatch(props, Snapshot(now, Some(newId), current));
            var db' := db.(ledger := db.ledger + [SuspiciousLogin(newId, u.id, u.email, current, 0, false, false, now)]);
            Consulted(Reading(Intended, routing), db, u, current, newId, now, None)
              == Answer(db', u, Dispatch(outcome, RoutedProps(routing)), None)
  {
    var b := db.contexts[k].fp;
    assert Baseline(Intended, db, u.id) == Some(ContextView(b));
    TrustedDeviceIffEqual(b, current);
    UnseenContextRecorded(db.ledger, u.id, u.email, Some(ContextView(b)), current, newId, now);
  }

  /** Read from the first approved Context, a new context is recorded and
      sent to the verification with the reported properties that changed;
      when only platform or os changed, the tokens are issued. */
  lemma NewContextVerifiedIntended(db: Db, email: string, current: Fingerprint, newId: ObjectId, now: nat, i: nat, k: nat)
    requires FindUserByEmail(db.users, Trim(email)) == Some(i)
    requires ContextAuthEnabled(db.preferences, db.users[i].id)
    requires FindContext(db.contexts, db.users[i].id) == Some(k) && db.contexts[k].fp != current
    requires FindByContext(db.ledger, db.users[i].id, current).None?
    requires Insert(db.ledger, NewSuspiciousLogin(newId, db.users[i].id, db.users[i].email, current, now)).Some?
    ensures var u := db.users[i];
            var props := MismatchedProps(UserContextData(ContextView(db.contexts[k].fp)), current);
            var db' := db.(ledger := db.ledger + [SuspiciousLogin(newId, u.id, u.email, current, 0, false, false, now)]);
            && (props != [] ==>
                  Signin(IntendedReading, db, email, true, current, newId, now, None)
                    == (ToLoginVerification(props, Snapshot(now, Some(newId), current), u), db'))
            && (props == [] ==>
                  Signin(IntendedReading, db, email, true, current, newId, now, None)
                    == (TokensIssued(u.id, u.email, u.role), db'.(tokens := db.tokens + [TokenRecord(u.id)])))
  {
    EnabledUserConsulted(IntendedReading, db, email, current, newId, now, i);
    NewContextConsultedIntended(db, db.users[i], current, newId, now, k);
  }

  /** The engine half of the lemma above. */
  lemma NewContextConsultedIntended(db: Db, u: User, current: Fingerprint, newId: ObjectId, now: nat, k: nat)
    requires FindContext(db.contexts, u.id) == Some(k) && db.contexts[k].fp != current
    requires FindByContext(db.ledger, u.id, current).None?
    requires Insert(db.ledger, NewSuspiciousLogin(newId, u.id, u.email, current, now)).Some?
    ensures var props := MismatchedProps(UserContextData(ContextView(db.contexts[k].fp)), current);
            var db' := db.(ledger := db.ledger + [SuspiciousLogin(newId, u.id, u.email, current, 0, false, false, now)]);
            && (props != [] ==>
                  Consulted(IntendedReading, db, u, current, newId, now, None)
                    == (ToLoginVerification(props, Snapshot(now, Some(newId), current), u), db'))
            && (props == [] ==>
                  Consulted(IntendedReading, db, u, current, newId, now, None)
                    == (TokensIssued(u.id, u.email, u.role), db'.(tokens := db.tokens + [TokenRecord(u.id)])))
  {
    var props := MismatchedProps(UserContextData(ContextView(db.contexts[k].fp)), current);
    UnseenContextIntended(Intended, db, u, current, newId, now, k);
    if props != [] {
      MismatchedPropsReportable(UserContextData(ContextView(db.contexts[k].fp)), current);
      IntendedRoutingVerifiesEveryMismatch(props, Snapshot(now, Some(newId), current));
    }
  }

  /** The typo of line 235 on its own: with the baseline read from the
      approved Context, a context that differs from it only in device type is
      recorded and then given the tokens under the list as written. */
  lemma DeviceTypeOnlyChangeGetsTokensAsWritten(db: Db, email: string, deviceType: string, newId: ObjectId, now: nat, i: nat, k: nat)
    requires FindUserByEmail(db.users, Trim(email)) == Some(i)
    requires ContextAuthEnabled(db.preferences, db.users[i].id)
    requires FindContext(db.contexts, db.users[i].id) == Some(k)
    requires deviceType != db.contexts[k].fp.deviceType
    requires var current := db.contexts[k].fp.(deviceType := deviceType);
             && FindByContext(db.ledger, db.users[i].id, current).None?
             && Insert(db.ledger, NewSuspiciousLogin(newId, db.users[i].id, db.users[i].email, current, now)).Some?
    ensures var u := db.users[i];
            var current := db.contexts[k].fp.(deviceType := deviceType);
            var db' := db.(ledger := db.ledger + [SuspiciousLogin(newId, u.id, u.email, current, 0, false, false, now)]);
            Signin(Reading(Intended, AsWritten), db, email, true, current, newId, now, None)
              == (TokensIssued(u.id, u.email, u.role), db'.(tokens := db.tokens + [TokenRecord(u.id)]))
  {
    var current := db.contexts[k].fp.(deviceType := deviceType);
    EnabledUserConsulted(Reading(Intended, AsWritten), db, email, current, newId, now, i);
    DeviceTypeOnlyConsulted(AsWritten, db, db.users[i], deviceType, newId, now, k);
  }

  /** The same sign-in with the list spelt as the engine reports is sent to
      the verification, naming just the device type. */
  lemma DeviceTypeOnlyChangeVerifiedIntended(db: Db, email: string, deviceType: string, newId: ObjectId, now: nat, i: nat, k: nat)
    requires FindUserByEmail(db.users, Trim(email)) == Some(i)
    requires ContextAuthEnabled(db.preferences, db.users[i].id)
    requires FindContext(db.contexts, db.users[i].id) == Some(k)
    requires deviceType != db.contexts[k].fp.deviceType
    requires var current := db.contexts[k].fp.(deviceType := deviceType);
             && FindByContext(db.ledger, db.users[i].id, current).None?
             && Insert(db.ledger, NewSuspiciousLogin(newId, db.users[i].id, db.users[i].email, current, now)).Some?
    ensures var u := db.users[i];
            var current := db.contexts[k].fp.(deviceType := deviceType);
            var db' := db.(ledger := db.ledger + [SuspiciousLogin(newId, u.id, u.email, current, 0, false, false, now)]);
            Signin(IntendedReading, db, email, true, current, newId, now, None)
              == (ToLoginVerification(["deviceType"], Snapshot(now, Some(newId), current), u), db')
  {
    var current := db.contexts[k].fp.(deviceType := deviceType);
    EnabledUserConsulted(IntendedReading, db, email, current, newId, now, i);
    DeviceTypeOnlyConsulted(Intended, db, db.users[i], deviceType, newId, now, k);
  }

  /** The engine half of the two lemmas above: a context differing from the
      approved one only in device type is recorded and reported as
      ["deviceType"]; the list as written then issues the tokens, the
      intended one sends it to the verification. */
  lemma DeviceTypeOnlyConsulted(routing: Variant, db: Db, u: User, deviceType: string, newId: ObjectId, now: nat, k: nat)
    requires FindContext(db.contexts, u.id) == Some(k)
    requires deviceType != db.contexts[k].fp.deviceType
    requires var current := db.contexts[k].fp.(deviceType := deviceType);
             && FindByContext(db.ledger, u.id, current).None?
             && Insert(db.ledger, NewSuspiciousLogin(newId, u.id, u.email, current, now)).Some?
    ensures var current := db.contexts[k].fp.(deviceType := deviceType);
            var db' := db.(ledger := db.ledger + [SuspiciousLogin(newId, u.id, u.email, current, 0, false, false, now)]);
            Consulted(Reading(Intended, routing), db, u, current, newId, now, None)
              == if routing == AsWritten
                 then (TokensIssued(u.id, u.email, u.role), db'.(tokens := db.tokens + [TokenRecord(u.id)]))
                 else (ToLoginVerification(["deviceType"], Snapshot(now, Some(newId), current), u), db')
  {
    var b := db.contexts[k].fp;
    var current := b.(deviceType := deviceType);
    OnlyDeviceTypeReported(b, current);
    UnseenContextIntended(routing, db, u, current, newId, now, k);
    DeviceTypeOnlyMismatchIssuesTokens(Snapshot(now, Some(newId), current));
  }

  /** A ranked list never repeats a field. */
  lemma RankedHasNoRepeats(fs: seq<Field>)
    ensures Ranked(fs) && |fs| >= 2 ==> fs[0] != fs[1]
  {
  }

  /** When exactly one reported field differs, it alone is reported. */
  lemma OneFieldReported(user: Obj, fp: Fingerprint, g: Field)
    requires g in ReportedFields
    requires forall f :: Differs(user, fp, f) <==> f == g
    ensures MismatchedProps(user, fp) == [Name(g)]
  {
    var fs := DifferingFields(user, fp, ReportedFields);
    DifferingReportedFields(user, fp);
    assert g in fs;
    forall k | 0 <= k < |fs| ensures fs[k] == g {
      assert fs[k] in fs;
    }
    RankedHasNoRepeats(fs);
    assert fs == [g];
  }

  /** Two contexts that differ only in device type report just that. */
  lemma OnlyDeviceTypeReported(b: Fingerprint, current: Fingerprint)
    requires current == b.(deviceType := current.deviceType) && current.deviceType != b.deviceType
    ensures MismatchedProps(UserContextData(ContextView(b)), current) == ["deviceType"]
  {
    var u := UserContextData(ContextView(b));
    forall f ensures Differs(u, current, f) <==> f == DeviceType {
      assert Prop(u, FieldKey(f)) == Str(Get(b, f));
    }
    OneFieldReported(u, current, DeviceType);
  }
}
