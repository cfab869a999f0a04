# SoYummy context-based sign-in, modelled in Dafny

This project models the context-based login trust engine of the SoYummy
recipe server (a TypeScript/Express/Mongoose application) and proves
properties of that model. The engine decides, on each sign-in of a user who
has switched it on, whether the request comes from a trusted context. A
context is eight strings: ip, country, city, browser, platform, os, device
and device type.

The engine answers one of six things:

- NO_CONTEXT_DATA: there is no baseline to compare with.
- MATCH: the context is trusted.
- BLOCKED: the context has been blocked.
- SUSPICIOUS: the context is pending and counted again.
- ERROR: a storage call failed.
- a mismatch report: the changed properties and a snapshot of the new
  context.

Along the way it files SuspiciousLogin documents, counts unverified attempts
and blocks a context after too many. Around it the model covers:

- the sign-in handler that turns the engine's answer into a refusal, a
  verification mail or tokens;
- the mailed approve and block links and the two callbacks behind them;
- sign-up, with its role rule and consent branch;
- the e-mail verification step that switches the engine on;
- the request fingerprint builder;
- the Admin document's validators and pre-save hook.

Storage is an explicit value (`Database.Db`, with the SuspiciousLogin
collection as `Ledger`). Every handler is a pure function from a store to a
response and a new store. A storage call that rejects is named by a `fault`
parameter. Writes made before the failing call persist, as they do in
MongoDB without transactions.

Where a line of the source evidently means something other than what it
does, the model has both readings: one member as written and one as meant.
The "## Findings" section lists them.

Files:

- `wrappers.dfy`: `Option`.
- `sequences.dfy`: `FindFirst`, the first-match search every `findOne` lookup is defined through.
- `strings.dfy`: `trim`, `split` and UTF-16 `length`.
- `fingerprint.dfy`: the eight-field fingerprint.
- `js_objects.dfy`: just enough of JavaScript objects for `Object.keys(...).every/some`.
- `object_id.dfy`: ObjectIds, their hex text and Mongoose's cast.
- `ledger.dfy`: the SuspiciousLogin collection.
- `context_data.dfy`: the fingerprint builder.
- `engine.dfy`: `verifyContextData`.
- `engine_props.dfy`: properties of the engine.
- `database.dfy`: the other collections.
- `responses.dfy`: HTTP answers.
- `links.dfy`: mailed links and their readers.
- `validators.dfy`: the `isLength` rule.
- `admin.dfy`: the Admin model.
- `verify_login.dfy`: approve and block callbacks, link validation and the verification mail.
- `verify_email.dfy`: e-mail verification.
- `user_controller.dfy`: sign-up and sign-in.
- `scenarios.dfy`: approval followed by a new sign-in.

## Model

| member | source | states |
|---|---|---|
| Strings.Trim | server/models/user.model.ts:18 | the result is a slice of the input that neither starts nor ends with whitespace |
| Strings.TrimIdempotent | server/models/admin.model.ts:15 | trimming a trimmed value changes nothing |
| Strings.Utf16Length | server/models/admin.model.ts:34 | `length` counts UTF-16 units: between n and 2n for n code points, exactly n when none is astral; one code point counts 2 when astral, else 1 |
| Strings.Utf16LengthAppend | server/models/admin.model.ts:34 | the UTF-16 length of a concatenation is the sum of the lengths |
| Strings.Split | server/controllers/user.controller.ts:73 | the pieces contain no separator and join back to the input |
| Strings.SplitJoin | server/controllers/user.controller.ts:73 | splitting the join of separator-free pieces gives the pieces back |
| Fingerprints.EqualIffAllFieldsAgree | server/utils/contextData.ts:10-19 | two fingerprints are equal exactly when all eight fields agree |
| JsObjects.SomeIffNotEvery | server/controllers/auth.controller.ts:32-47 | `some(!==)` over the keys is the negation of `every(===)` |
| JsObjects.ContextViewsEqualIff | server/controllers/auth.controller.ts:32-35 | comparing two context objects key by key is fingerprint equality |
| ObjectIds.HexRoundTrip | server/middlewares/users/verifyLogin.ts:49 | reading back the hex text of a number gives the number |
| ObjectIds.CastId | server/middlewares/users/verifyLogin.ts:88 | the cast succeeds exactly on 24 hex digits |
| ObjectIds.CastIdText | server/middlewares/users/verifyLogin.ts:88 | the text of an id casts back to the same id |
| ObjectIds.IdTextInjective | server/middlewares/users/verifyLogin.ts:49 | different ids have different texts |
| ContextData.DeviceTypeOf | server/utils/contextData.ts:35-45 | the device type is one of four values; Mobile wins over Desktop, Desktop over Tablet, otherwise "unknown" (each case an iff) |
| ContextData.GetCurrentContextData | server/utils/contextData.ts:21-48 | the fingerprint is complete; each field is its input, or "unknown" when the input is missing or empty; browser and device type come from the parsed user-agent |
| ContextData.NothingKnown | server/utils/contextData.ts:22-45 | without a lookup result and a user-agent, every field but the address is "unknown" |
| ContextData.KnownBrowserHasSpace | server/utils/contextData.ts:26-28 | a reported browser always contains a space, so it is never "unknown" |
| Ledger.NewSuspiciousLogin | server/models/suspiciousLogin.model.ts:20-39 | a new document has counter 0, both flags false, the given owner, e-mail, fields and creation time |
| Ledger.FindByContext | server/controllers/auth.controller.ts:49-61 | the first document whose owner and all eight fields equal the query; none when no document matches |
| Ledger.UpdateById | server/controllers/auth.controller.ts:161-177 | patches exactly the document with that id and nothing else; no document means no change |
| Ledger.Insert | server/models/suspiciousLogin.model.ts:22-31 | saving succeeds exactly when every required string is non-empty and the id is unused, and appends the document |
| Ledger.InsertPreservesInvariant | server/controllers/auth.controller.ts:62-77 | filing a document for an unmatched context keeps ids unique, one document per context, never both flags |
| Ledger.UpdatePreservesInvariant | server/controllers/auth.controller.ts:161-177 | patching by id keeps the invariant when the patch never sets both flags |
| Engine.UserContextData | server/controllers/auth.controller.ts:88-97 | the baseline object has exactly the eight keys, each read off the baseline document (undefined when absent) |
| Engine.MismatchedProps | server/controllers/auth.controller.ts:219-238 | a property name is reported exactly when it is one of the six compared fields and differs; names come in test order |
| Engine.Escalate | server/controllers/auth.controller.ts:160-190 | the ledger keeps its length; the outcome is SUSPICIOUS or BLOCKED, and ERROR only on a fault |
| Engine.VerifyContextData | server/controllers/auth.controller.ts:79-250 | NO_CONTEXT_DATA exactly when the baseline read succeeds with nothing; a mismatch report is non-empty, carries the current fields and files exactly one new document; every decision either writes nothing, files one document, or changes a found one in place; without a fault, ERROR only when the new document cannot be saved |
| EngineProperties.TrustedDeviceIffEqual | server/controllers/auth.controller.ts:32-35 | against a fingerprint baseline, `isTrustedDevice` holds exactly when the fingerprints are equal |
| EngineProperties.NoBaselineGivesNoContextData | server/controllers/auth.controller.ts:82-86 | no baseline document gives NO_CONTEXT_DATA and an untouched ledger |
| EngineProperties.MatchingBaselineGivesMatch | server/controllers/auth.controller.ts:99-103 | the baseline's own context gives MATCH with the ledger untouched, whatever later call would fail |
| EngineProperties.StoredDocumentAlwaysLooksChanged | server/controllers/auth.controller.ts:37-47 | `Object.keys` of a found document lists its internal properties, which read as undefined on the current context object, so the document always looks changed and never matches |
| EngineProperties.PendingDocumentEscalates | server/controllers/auth.controller.ts:110-191 | a found document with neither flag set is always counted, never re-filed |
| EngineProperties.EscalateEffect | server/controllers/auth.controller.ts:160-190 | the counter rises by one; a counter already at 3 before the increment also blocks and untrusts; a fault at the increment writes nothing, a fault at the block keeps the increment |
| EngineProperties.MismatchAlwaysCarriesId | server/controllers/auth.controller.ts:140-158 | every mismatch report carries the new document's id, so the branch that files a second document for a found context never runs |
| EngineProperties.LedgerMismatchCarriesId | server/controllers/auth.controller.ts:105-216 | inside the ledger consultation, every mismatch report carries the new document's id |
| EngineProperties.SilentMatchHasTwoSources | server/controllers/auth.controller.ts:192-196 | a MATCH that writes nothing comes from the baseline or a trusted document, so the `isOldDataMatched` branch never runs |
| EngineProperties.SilentLedgerMatchIsTrusted | server/controllers/auth.controller.ts:105-216 | inside the ledger consultation, a MATCH that writes nothing needs a trusted document found for the context |
| EngineProperties.FlaggedContextDecidedByFlag | server/controllers/auth.controller.ts:110-113 | a blocked document gives BLOCKED, else a trusted one gives MATCH; neither writes |
| EngineProperties.PendingContextCounted | server/controllers/auth.controller.ts:160-190 | the same four cases as EscalateEffect, stated for the whole decision |
| EngineProperties.UnseenContextRecorded | server/controllers/auth.controller.ts:197-247 | an unseen context files exactly one document (counter 0, flags false, the user's e-mail) and reports the changed properties with the new id; an empty report is MATCH |
| EngineProperties.ReportNamesChangedFields | server/controllers/auth.controller.ts:219-238 | against a fingerprint baseline the report names exactly the compared fields that differ, never platform or os |
| EngineProperties.NoErrorWithoutFault | server/controllers/auth.controller.ts:248-250 | with a non-empty e-mail, a complete fingerprint and an unused id, ERROR needs a fault |
| EngineProperties.DecisionPreservesInvariant | server/controllers/auth.controller.ts:79-250 | every decision keeps the ledger invariant |
| EngineProperties.PendingLoginStep | server/controllers/auth.controller.ts:160-190 | with the counter below 3, the next sign-in from a pending context is SUSPICIOUS and raises the counter by one; the document stays pending and is still the one found |
| EngineProperties.BlockingLoginStep | server/controllers/auth.controller.ts:168-186 | with the counter at 3, the next sign-in is BLOCKED, sets the counter to 4, blocks and untrusts the document, which is still the one found |
| EngineProperties.FiveSignInsFromPending | server/controllers/auth.controller.ts:105-190 | from a fresh pending document, five sign-ins from its context give SUSPICIOUS three times, then BLOCKED with the counter at 4, then BLOCKED with nothing written |
| EngineProperties.BlockedStaysBlocked | server/controllers/auth.controller.ts:111 | a blocked context stays BLOCKED whatever its counter, and nothing is written |
| EngineProperties.PlatformOnlyChangeNotReported | server/controllers/auth.controller.ts:219-247 | a change of platform or os alone gives an empty report |
| EngineProperties.EarlyFaultGivesError | server/controllers/auth.controller.ts:80-113 | a failing baseline read, or a failing lookup once the baseline did not match, gives ERROR with nothing written |
| EngineProperties.AppendedFound | server/controllers/auth.controller.ts:49-77 | a document filed for a context no document matched is the one the next lookup for that context finds |
| EngineProperties.LookupIsExact | server/controllers/auth.controller.ts:49-61 | a fingerprint differing in any field never finds the same document |
| Database.FindUserByEmail | server/controllers/user.controller.ts:130-132 | the first user with the address; none exactly when no user has it |
| Database.InsertEmail | server/models/email.model.ts:11-34 | an Email document saves exactly when its required strings are present and its code is not taken |
| Links.IdLinkRoundTrip | server/middlewares/users/verifyLogin.ts:48-50 | a link built with an id reads back as that id and that address |
| Links.UndefinedIdLinkUnreadable | server/middlewares/users/verifyLogin.ts:48-50 | a link built without an id carries "undefined" and never reads back |
| Links.ApproveAndBlockCarrySameQuery | server/middlewares/users/verifyLogin.ts:49-50 | the approve and block links differ but carry the same id and address |
| Links.ParseEmailLink | server/middlewares/users/verifyEmail.ts:48 | a link that reads back is exactly the link built from what was read, with a code free of '&' |
| Links.EmailLinkRoundTrip | server/middlewares/users/verifyEmail.ts:48 | a verification link reads back as its code and address |
| Validators.ValidatorLength | server/middlewares/users/verifyLogin.ts:23 | the validator's length never exceeds the code-point count and equals it exactly when there are no presentation selectors; one character counts 1, or 0 when it is a presentation selector |
| Validators.ValidatorLengthAppend | server/middlewares/users/verifyLogin.ts:23 | the length of a concatenation is the sum of the lengths |
| AdminAccounts.MatchUsernamePattern | server/models/admin.model.ts:18-21 | the scan accepts exactly a non-empty run of ASCII letters and digits |
| AdminAccounts.ValidateUsername | server/models/admin.model.ts:11-26 | trimming, then required, minlength, maxlength and the pattern scan, stopping at the first rejection, gives exactly the error of the reference definition |
| AdminAccounts.UsernameError | server/models/admin.model.ts:11-26 | after trimming: Required exactly when empty; valid exactly when 3 to 20 long and alphanumeric |
| AdminAccounts.PasswordError | server/models/admin.model.ts:28-40 | after trimming: Required exactly when empty; valid exactly when at least 6 UTF-16 units long |
| AdminAccounts.PreSave | server/models/admin.model.ts:47-59 | an unmodified password is left alone; a modified one is replaced by its hash, and the save fails when hashing fails |
| AdminAccounts.CreateAdmin | server/models/admin.model.ts:9-59 | a new admin is created exactly when both fields validate and hashing succeeds, with the trimmed name and the hash of the trimmed password; validation fails exactly when a field has an error, and then reports both fields' errors before the hook runs |
| AdminAccounts.UsernameIgnoresSurroundingWhitespace | server/models/admin.model.ts:15 | a username and its trimmed form are judged alike |
| AdminAccounts.PasswordIgnoresSurroundingWhitespace | server/models/admin.model.ts:31 | a password and its trimmed form are judged alike |
| LoginCallbacks.LookUp | server/middlewares/users/verifyLogin.ts:88-92 | Found names a document with the cast id and the query's e-mail; CastFailed exactly when the id does not cast |
| LoginCallbacks.VerifyLogin | server/middlewares/users/verifyLogin.ts:84-117 | an invalid link writes nothing; only ledger and contexts ever change; the answer is 200, 400 or a 500 |
| LoginCallbacks.InvalidLinkWritesNothing | server/middlewares/users/verifyLogin.ts:88-92 | an unknown id or another e-mail answers 400 in both callbacks and writes nothing |
| LoginCallbacks.ApproveResolvesDocument | server/middlewares/users/verifyLogin.ts:94-113 | approval appends one trusted Context copying owner, e-mail and fields, and trusts and unblocks only that document |
| LoginCallbacks.BlockResolvesDocument | server/middlewares/users/verifyLogin.ts:123-135 | blocking blocks and untrusts only that document and writes nothing else |
| LoginCallbacks.CallbacksRepeat | server/middlewares/users/verifyLogin.ts:94-111 | a second approval keeps the flags but appends another Context; a second block changes nothing |
| LoginCallbacks.CallbacksPreserveInvariant | server/middlewares/users/verifyLogin.ts:107-111 | after either callback no document is both trusted and blocked |
| LoginCallbacks.FaultAnswers500 | server/middlewares/users/verifyLogin.ts:114-116 | a failing storage call answers 500 in both callbacks |
| LoginCallbacks.UncastableIdAnswers500 | server/middlewares/users/verifyLogin.ts:88 | an id that is not 24 hex digits fails the cast, answers 500 and writes nothing |
| LoginCallbacks.ValidateLoginQuery | server/middlewares/users/verifyLogin.ts:21-31 | 422 unless the address passes the e-mail check and the id has length 24 |
| LoginCallbacks.ShortIdPassesAsWritten | server/middlewares/users/verifyLogin.ts:23-28 | a three-character id passes as written and is refused by the declared rule |
| LoginCallbacks.MailedLinkValidates | server/middlewares/users/verifyLogin.ts:49 | the query of a mailed link always passes the declared rule |
| LoginCallbacks.SendWith | server/middlewares/users/verifyLogin.ts:44-82 | the answer is 401 exactly when no call failed and the Email document is valid and its code unused, and then the document is appended; a 500 writes nothing; the mail with both links goes out unless sending it failed |
| LoginCallbacks.SendAlwaysFailsAsWritten | server/middlewares/users/verifyLogin.ts:64-81 | as written the Email save always fails: 500, nothing stored, though the mail with both links went out |
| LoginCallbacks.SendRecordsVerification | server/middlewares/users/verifyLogin.ts:64-75 | with the purpose under `for`, the answer is 401 and one pending verification keyed by the document id is stored |
| LoginCallbacks.CodeOf | server/middlewares/users/verifyLogin.ts:66 | the stored code is empty exactly when there is no id, and otherwise casts back to the id |
| LoginCallbacks.MissingIdAnswers500 | server/middlewares/users/verifyLogin.ts:64-81 | without an id the Email document fails the `required` code and the answer is 500 with nothing stored |
| EmailVerification.Decimal | server/middlewares/users/verifyEmail.ts:47 | `toString` gives a non-empty run of decimal digits |
| EmailVerification.DecimalRoundTrip | server/middlewares/users/verifyEmail.ts:47 | reading the digits back gives the number |
| EmailVerification.VerificationCode | server/middlewares/users/verifyEmail.ts:47 | a code is five decimal digits with value 10000 plus the draw |
| EmailVerification.ValidateEmailQuery | server/middlewares/users/verifyEmail.ts:21-31 | 422 unless the address passes the e-mail check and the code has length 5 |
| EmailVerification.MailedCodeValidates | server/middlewares/users/verifyEmail.ts:47-48 | a mailed link reads back intact and its query validates |
| EmailVerification.DeleteCodesOf | server/middlewares/users/verifyEmail.ts:114 | no entry of the address is left; every entry of another address is kept, as many times as it occurs |
| EmailVerification.InsertPreference | server/models/preference.model.ts:8-19 | a Preference saves exactly when it has a user who has none yet |
| EmailVerification.VerifyEmail | server/middlewares/users/verifyEmail.ts:82-127 | only users, codes and preferences change; the answers are next, the two 400s, or 500; a 400 writes nothing |
| EmailVerification.VerifyEmailFaultAnswers500 | server/middlewares/users/verifyEmail.ts:89-126 | a fault in any storage call that is reached answers 500; a fault in a lookup or the update writes nothing, and a fault in one of the two last writes keeps the other |
| EmailVerification.AlreadyVerifiedWins | server/middlewares/users/verifyEmail.ts:90-99 | an address whose trimmed form belongs to a verified user is refused whatever the code, with nothing written |
| EmailVerification.UnknownCodeRefused | server/middlewares/users/verifyEmail.ts:101-105 | an unverified address without that code is refused, with nothing written |
| EmailVerification.VerificationEnablesContextAuth | server/middlewares/users/verifyEmail.ts:107-123 | success verifies the first user with the trimmed address, clears all codes of the address as sent and switches context-based authentication on |
| EmailVerification.SecondVerificationRefused | server/middlewares/users/verifyEmail.ts:90-99 | the same link used twice is refused the second time |
| EmailVerification.OrphanCodeAnswers500 | server/middlewares/users/verifyEmail.ts:113-126 | a code for an address with no user clears the codes but fails the Preference and answers 500 |
| UserController.AdminIffCompanyDomain | server/controllers/user.controller.ts:73-74 | the role is admin exactly when what follows the first '@' is "soyummy.com", alone or followed by another '@' |
| UserController.CompanyAddressIsAdmin | server/controllers/user.controller.ts:73-74 | any local part at the company domain gets the admin role |
| UserController.SubdomainAddressIsGeneral | server/controllers/user.controller.ts:73-74 | an address at a subdomain of the company domain gets the general role |
| UserController.InsertUser | server/models/user.model.ts:14-23 | a user saves exactly when e-mail and password are non-empty and neither the e-mail nor the id is taken |
| UserController.Signup | server/controllers/user.controller.ts:62-105 | a failed save answers 400 and writes nothing; otherwise the user is stored with the trimmed address, the derived role and consent as verification, and the answer is 201 without consent, next with it |
| UserController.ConsentSkipsVerification | server/controllers/user.controller.ts:76-97 | a user who consented is already verified, so the verification link is refused and never switches the engine on |
| UserController.BaselineAsWritten | server/controllers/auth.controller.ts:82 | the baseline read finds the user's Preference, which has none of the eight fields |
| UserController.BaselineIntended | server/controllers/auth.controller.ts:82 | there is a baseline exactly when the user has an approved Context; its eight fields are strings copied from the earliest such Context |
| UserController.Dispatch | server/controllers/user.controller.ts:173-249 | BLOCKED and SUSPICIOUS answer 403, NO_CONTEXT_DATA and ERROR answer 500; a mismatch goes to verification exactly when one of its properties is listed; everything else issues tokens |
| UserController.Signin | server/controllers/user.controller.ts:114-291 | only the ledger and the tokens ever change; exactly one Token document is saved when tokens are issued, none otherwise |
| UserController.PaddedAddressSignsIn | server/controllers/user.controller.ts:127-132 | the lookup filter is cast through the `trim` setter and the validation error is ignored, so an address with surrounding whitespace signs in exactly as the trimmed one |
| Strings.LeadingSpaceTrimmed | server/models/user.model.ts:18 | a leading space never survives `trim`, so " a@b.co" is looked up as "a@b.co" |
| UserController.CredentialsCheckedFirst | server/controllers/user.controller.ts:130-163 | an unknown address answers 404 and a wrong password 400, before any other read or write |
| UserController.StorageFaultAnswers500 | server/controllers/user.controller.ts:279-290 | a failing user lookup, Preference lookup or Token save answers 500 with the store unchanged |
| UserController.DisabledUserGetsTokens | server/controllers/user.controller.ts:165-170 | without an enabled Preference the engine is skipped and the tokens are issued |
| UserController.EnabledUserConsulted | server/controllers/user.controller.ts:170-171 | with an enabled Preference the engine decides |
| UserController.RoutingAsWritten | server/controllers/user.controller.ts:228-241 | as written, a mismatch reaches verification exactly when it names a property other than deviceType |
| UserController.DeviceTypeOnlyMismatchIssuesTokens | server/controllers/user.controller.ts:235 | a deviceType-only mismatch issues tokens as written and goes to verification with the intended list |
| UserController.IntendedRoutingVerifiesEveryMismatch | server/controllers/user.controller.ts:228-241 | with the intended list every non-empty report goes to verification |
| UserController.PreferenceBaselineNeverTrusts | server/controllers/auth.controller.ts:82-103 | against a Preference baseline no context is trusted, and all six compared properties are reported |
| UserController.EnabledUserAlwaysChallengedAsWritten | server/controllers/auth.controller.ts:82 | as written, every sign-in of an enabled user from a context the ledger has not seen is sent to verification with all six properties, even from a context the user approved |
| UserController.ApprovedContextGetsTokens | server/controllers/user.controller.ts:170-278 | with the baseline from the first approved Context, signing in from that context issues tokens and leaves the ledger alone |
| UserController.NewContextVerifiedIntended | server/controllers/user.controller.ts:170-278 | with the intended readings a new context is filed and sent to verification with the changed properties; a change of platform or os alone issues tokens |
| UserController.DeviceTypeOnlyChangeGetsTokensAsWritten | server/controllers/user.controller.ts:228-241 | with the intended baseline and the list as written, a change of device type alone is recorded and issues tokens |
| UserController.DeviceTypeOnlyChangeVerifiedIntended | server/controllers/user.controller.ts:228-241 | with the intended baseline and the intended list, the same sign-in is sent to verification naming just "deviceType" |
| UserController.OnlyDeviceTypeReported | server/controllers/auth.controller.ts:219-238 | two contexts differing only in device type report just "deviceType" |
| Scenarios.ApprovalTrustsContextAsWritten | server/middlewares/users/verifyLogin.ts:94-113 | as written, after approval the next sign-in from the approved context is trusted through its ledger document and issues tokens |
| Scenarios.FirstApprovalBecomesBaseline | server/middlewares/users/verifyLogin.ts:94-106 | with the intended baseline, the first approved context becomes the baseline and the next sign-in from it issues tokens |

## Left out

- Express routing, middleware wiring and the Swagger blocks: plumbing. The
  handlers are modelled as functions. `next()` is the response `Next`.
- Sending mail, the HTML templates and the TTL expiry of Email and Token
  documents: I/O and time. A send either succeeds or is the fault
  `SendMail`. The message id is an input.
- bcrypt and jsonwebtoken. The password comparison is a boolean input. The
  hash is a parameter `string -> Option<string>` or the stored string. Issued
  tokens are `TokensIssued(holder, email, role)`.
- The geoip lookup and the user-agent parser. Their results are the inputs
  of `GetCurrentContextData`. `req.ip` is an optional string.
- The AES setters and getters of the Context model. A Context is stored as
  its plain fingerprint, as if decryption undid encryption.
- `saveLogInfo` and the Log model: audit I/O.
- `Math.random` in the verification code. The floored random part is an
  input `draw < 90000`, and the floating-point product is not modelled.
- Concurrency. Calls run one after another, so the race between the
  separate increment and block writes is not modelled.
- The e-mail checks of the validator and Joi libraries. `isEmail` is a
  parameter. The signin body validation is ignored by the handler and is not
  an input.
- Message texts. Long messages are shortened where the model only needs to
  tell answers apart. The SUSPICIOUS 403 text is abbreviated.
- `formatCreatedAt` of the snapshot time. The snapshot carries the raw
  creation time.
- `addContextData`, which a route file imports from the auth controller. It
  is not part of that file and is not part of this model.
- The exact set of a Mongoose document's own keys, which varies between
  Mongoose versions. `RecordView` keeps the two every version has, `$__`
  and `_doc`. No version lists a schema path.
- Query casting of filters other than the e-mail address. Filters on the
  User e-mail go through the schema's `trim` setter, and the model trims
  the address for them: in sign-in and in both User queries of the e-mail
  verification. The Email schema has no setter, so its filters compare the
  address as sent. The remaining filters hold ids and SuspiciousLogin
  fingerprint strings, which have no setters and which the model already
  stores as cast.
- The 12-character form of ObjectId strings that Mongoose also casts.
  `CastId` accepts exactly 24 hex digits. This only changes which 500 or 400
  answer a hand-written id gets.
- URL encoding of link parameters. Values are interpolated raw, as the
  source does.
- `JSON.parse` of the consent flag outside the `try` in signup, and consent
  values other than true and false. Consent is a boolean.
- Signup with a missing e-mail, which throws before the `try`. The address
  is a string.
- The `unique` index on the Admin username. `CreateAdmin` saves into an
  empty collection.
- The `isNew` check after the user save. It is always false after a save, so
  it never throws.
- The Preference of a user found by `Preference.findOne({user,
  enableContextBasedAuth: true})` is modelled as `ContextAuthEnabled`, an
  existence test. The baseline read takes the first Preference of the user.
- The described design (an atomic increment, blocking once three attempts
  are reached) differs from the code. The code reads the counter before a
  separate increment and blocks on the fourth repeated attempt. The model
  follows the code.

## Findings

| source | as written | input that shows it | evidently intended | confidence | as-written member | corrected member |
|---|---|---|---|---|---|---|
| server/controllers/auth.controller.ts:82 | the baseline is read from the user's Preference, which has none of the eight fields, so no context is ever trusted by the baseline and every report names all six properties | an enabled user signing in from the very context they approved earlier, with the ledger not yet holding it | read the baseline from the user's approved Context | not executed | UserController.EnabledUserAlwaysChallengedAsWritten | UserController.ApprovedContextGetsTokens |
| server/controllers/user.controller.ts:235 | the routing list says "deviceLOG_TYPE", so a mismatch naming only "deviceType" issues tokens | a sign-in differing from the baseline only in device type | "deviceType" | not executed | UserController.DeviceTypeOnlyChangeGetsTokensAsWritten | UserController.DeviceTypeOnlyChangeVerifiedIntended |
| server/middlewares/users/verifyLogin.ts:25 | `validationResult(res)` reads the response, not the request, so the id-length and e-mail rules never reject | `?id=abc&email=a@b.co` | `validationResult(req)` | not executed | LoginCallbacks.ShortIdPassesAsWritten | LoginCallbacks.MailedLinkValidates |
| server/middlewares/users/verifyLogin.ts:68 | the Email document's purpose is passed as `forL`, which the schema drops, so the required `for` is missing and every save fails: 500 instead of 401 | any suspicious sign-in whose mail goes out | `for: "login"` | not executed | LoginCallbacks.SendAlwaysFailsAsWritten | LoginCallbacks.SendRecordsVerification |
