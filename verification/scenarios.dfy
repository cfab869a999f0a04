/** Sign-in, approval and sign-in again: what the approve link
    (server/middlewares/users/verifyLogin.ts) changes for the next sign-in
    from the same context (server/controllers/user.controller.ts). */
module Scenarios {
  import opened Wrappers
  import opened Strings
  import opened Fingerprints
  import opened ObjectIds
  import opened Ledger
  import opened Engine
  import opened EngineProperties
  import opened Database
  import opened Responses
  import opened LoginCallbacks
  import opened UserController

  /** With one document per context, the document at `i` is the one found
      for its own user and context. */
  lemma OwnContextFound(l: seq<SuspiciousLogin>, i: nat)
    requires UniqueContexts(l) && i < |l|
    ensures FindByContext(l, l[i].user, l[i].fp) == Some(i)
  {
  }

  /** As written, once the user approves a login its context is trusted
      through its ledger document: the next sign-in from it issues the tokens
      and writes nothing to the ledger. */
  lemma ApprovalTrustsContextAsWritten(db: Db, email: string, u: nat, i: nat, newId: ObjectId, now: nat)
    requires Invariant(db.ledger) && i < |db.ledger|
    requires FindUserByEmail(db.users, Trim(email)) == Some(u) && db.users[u].id == db.ledger[i].user
    requires ContextAuthEnabled(db.preferences, db.users[u].id)
    ensures var r := db.ledger[i];
            var approved := VerifyLogin(db, QueryOf(r.id, r.email), None).1;
            var user := db.users[u];
            Signin(AsWrittenReading, approved, email, true, r.fp, newId, now, None)
              == (TokensIssued(user.id, user.email, user.role), approved.(tokens := approved.tokens + [TokenRecord(user.id)]))
  {
    var r := db.ledger[i];
    ApproveResolvesDocument(db, i);
    var approved := VerifyLogin(db, QueryOf(r.id, r.email), None).1;
    var l := approved.ledger;
    assert l == db.ledger[i := r.(isTrusted := true, isBlocked := false)];
    OwnContextFound(db.ledger, i);
    ReplacedStillFound(db.ledger, r.user, r.fp, i, l[i]);
    EnabledUserConsulted(AsWrittenReading, approved, email, r.fp, newId, now, u);
    var user := db.users[u];
    EnabledHasPreference(approved.preferences, user.id);
    var p := approved.preferences[FindPreference(approved.preferences, user.id).value];
    PreferenceBaselineNeverTrusts(p, r.fp);
    FlaggedContextDecidedByFlag(l, user.id, user.email, Some(PreferenceView(p)), r.fp, newId, now, None);
  }

  /** With the baseline read from the first approved Context, approving the
      first login of a user makes that context the baseline: the next
      sign-in from it issues the tokens. */
  lemma FirstApprovalBecomesBaseline(db: Db, email: string, u: nat, i: nat, newId: ObjectId, now: nat)
    requires Invariant(db.ledger) && i < |db.ledger|
    requires FindUserByEmail(db.users, Trim(email)) == Some(u) && db.users[u].id == db.ledger[i].user
    requires ContextAuthEnabled(db.preferences, db.users[u].id)
    requires FindContext(db.contexts, db.users[u].id).None?
    ensures var r := db.ledger[i];
            var approved := VerifyLogin(db, QueryOf(r.id, r.email), None).1;
            var user := db.users[u];
            Signin(IntendedReading, approved, email, true, r.fp, newId, now, None)
              == (TokensIssued(user.id, user.email, user.role), approved.(tokens := approved.tokens + [TokenRecord(user.id)]))
  {
    var r := db.ledger[i];
    ApproveResolvesDocument(db, i);
    var approved := VerifyLogin(db, QueryOf(r.id, r.email), None).1;
    var k := |db.contexts|;
    assert approved.contexts[k] == TrustedContext(r.user, r.email, r.fp, true);
    assert FindContext(approved.contexts, db.users[u].id) == Some(k);
    ApprovedContextGetsTokens(Intended, approved, email, newId, now, u, k);
  }
}
