/** Properties of the trust engine (`verifyContextData`): what each kind of
    baseline and ledger state leads to, which branches of the source no input
    can reach, how a repeated suspicious context escalates to a block, and the
    collection invariant every decision keeps. */
module EngineProperties {
  import opened Wrappers
  import opened Fingerprints
  import opened JsObjects
  import opened ObjectIds
  import opened Ledger
  import opened Engine
  import opened Database

  /** A baseline object built from a fingerprint agrees with the current
      context exactly when the two fingerprints are equal. */
  lemma TrustedDeviceIffEqual(b: Fingerprint, current: Fingerprint)
    ensures IsTrustedDevice(ContextView(current), UserContextData(ContextView(b))) <==> b == current
  {
    var u := UserContextData(ContextView(b));
    var c := ContextView(current);
    if EveryKeyEqual(u, c) {
      forall f
        ensures Get(b, f) == Get(current, f)
      {
        assert FieldKey(f) in u;
        assert Prop(u, FieldKey(f)) == Prop(c, FieldKey(f));
      }
      EqualIffAllFieldsAgree(b, current);
    }
  }

  /** No baseline document: NO_CONTEXT_DATA whatever the fingerprint, and the
      ledger is not read or written. */
  lemma NoBaselineGivesNoContextData(
    l: seq<SuspiciousLogin>, user: ObjectId, email: string, current: Fingerprint, newId: ObjectId, now: nat)
    ensures VerifyContextData(l, user, email, None, current, newId, now, None) == Decision(NoContextData, l)
  {
  }

  /** The current context equal to the baseline on all eight fields: MATCH,
      decided before the ledger is consulted, so no ledger fault matters and
      nothing is written. */
  lemma MatchingBaselineGivesMatch(
    l: seq<SuspiciousLogin>, user: ObjectId, email: string, b: Fingerprint,
    newId: ObjectId, now: nat, fault: Option<Call>)
    requires fault != Some(ReadBaseline)
    ensures VerifyContextData(l, user, email, Some(ContextView(b)), b, newId, now, fault) == Decision(Match, l)
  {
    TrustedDeviceIffEqual(b, b);
  }

  /** `Object.keys` of a found document lists its internal properties, which
      the current context object lacks (they read as `undefined` there), so
      `isSuspiciousContextChanged` is always true and `isOldDataMatched`
      always false for it. */
  lemma {:induction false} StoredDocumentAlwaysLooksChanged(r: SuspiciousLogin, current: Fingerprint)
    ensures IsSuspiciousContextChanged(RecordView(r), ContextView(current))
    ensures !IsOldDataMatched(RecordView(r), ContextView(current))
  {
    var stored := RecordView(r);
    assert RawDocKey in stored && Prop(ContextView(current), RawDocKey) == Undefined;
    assert Prop(stored, RawDocKey) != Prop(ContextView(current), RawDocKey);
  }

  /** Past the baseline comparison and the lookup fault, the decision is the
      collection consultation. */
  lemma ConsultsLedger(
    l: seq<SuspiciousLogin>, user: ObjectId, email: string, baseline: Option<Obj>,
    current: Fingerprint, newId: ObjectId, now: nat, fault: Option<Call>)
    requires baseline.Some? && fault != Some(ReadBaseline) && fault != Some(FindSuspicious)
    requires !IsTrustedDevice(ContextView(current), UserContextData(baseline.value))
    ensures VerifyContextData(l, user, email, baseline, current, newId, now, fault)
         == Consult(l, user, email, UserContextData(baseline.value), current, newId, now, fault)
  {
  }

  /** A found document with neither flag set is always escalated: it matched
      the context, so it never differs from it in the eight fields, and it
      always looks changed. */
  lemma PendingDocumentEscalates(
    l: seq<SuspiciousLogin>, user: ObjectId, email: string, userCtx: Obj,
    current: Fingerprint, newId: ObjectId, now: nat, fault: Option<Call>, i: nat)
    requires FindByContext(l, user, current) == Some(i)
    requires !l[i].isBlocked && !l[i].isTrusted
    ensures Consult(l, user, email, userCtx, current, newId, now, fault) == Escalate(l, l[i], fault)
  {
    StoredDocumentAlwaysLooksChanged(l[i], current);
  }

  /** What escalating a document does to the collection, by case: the
      counter of that document goes up by one, then it may be blocked. */
  lemma EscalateEffect(l: seq<SuspiciousLogin>, i: nat, fault: Option<Call>)
    requires UniqueIds(l) && i < |l|
    ensures var n := l[i].unverifiedAttempts;
            var counted := l[i := l[i].(unverifiedAttempts := n + 1)];
            var d := Escalate(l, l[i], fault);
            && (fault == Some(CountAttempt) ==> d == Decision(Error, l))
            && (fault != Some(CountAttempt) && n < BlockThreshold ==> d == Decision(Suspicious, counted))
            && (fault != Some(CountAttempt) && n >= BlockThreshold && fault != Some(BlockContext) ==>
                  d == Decision(Blocked, counted[i := counted[i].(isBlocked := true, isTrusted := false)]))
            && (n >= BlockThreshold && fault == Some(BlockContext) ==> d == Decision(Error, counted))
  {
    FindOwnId(l, i);
    var counted := UpdateById(l, l[i].id, IncrementAttempts);
    assert counted == l[i := l[i].(unverifiedAttempts := l[i].unverifiedAttempts + 1)];
    assert UniqueIds(counted);
    FindOwnId(counted, i);
  }

  /** Escalation keeps the collection invariant. */
  lemma EscalatePreservesInvariant(l: seq<SuspiciousLogin>, i: nat, fault: Option<Call>)
    requires Invariant(l) && i < |l|
    ensures Invariant(Escalate(l, l[i], fault).ledger)
  {
    var id := l[i].id;
    UpdatePreservesInvariant(l, id, IncrementAttempts);
    UpdatePreservesInvariant(UpdateById(l, id, IncrementAttempts), id, SetFlags(false, true));
  }

  /** The branch that files a second document for a found context (lines
      142-158) never runs: every mismatch report carries the new document's
      id. */
  lemma MismatchAlwaysCarriesId(
    l: seq<SuspiciousLogin>, user: ObjectId, email: string, baseline: Option<Obj>,
    current: Fingerprint, newId: ObjectId, now: nat, fault: Option<Call>)
    ensures var d := VerifyContextData(l, user, email, baseline, current, newId, now, fault);
            d.outcome.Mismatch? ==> d.outcome.currentContextData.id == Some(newId)
  {
    if && fault != Some(ReadBaseline) && fault != Some(FindSuspicious) && baseline.Some?
       && !IsTrustedDevice(ContextView(current), UserContextData(baseline.value))
    {
      ConsultsLedger(l, user, email, baseline, current, newId, now, fault);
      LedgerMismatchCarriesId(l, user, email, UserContextData(baseline.value), current, newId, now, fault);
    }
  }

  /** Within the ledger consultation, every mismatch report carries the new
      document's id. */
  lemma LedgerMismatchCarriesId(
    l: seq<SuspiciousLogin>, user: ObjectId, email: string, userCtx: Obj,
    current: Fingerprint, newId: ObjectId, now: nat, fault: Option<Call>)
    ensures var d := Consult(l, user, email, userCtx, current, newId, now, fault);
            d.outcome.Mismatch? ==> d.outcome.currentContextData.id == Some(newId)
  {
    var found := FindByContext(l, user, current);
    if found.Some? && !l[found.value].isBlocked && !l[found.value].isTrusted {
      PendingDocumentEscalates(l, user, email, userCtx, current, newId, now, fault, found.value);
    }
  }

  /** The MATCH of lines 192-196 never runs: a MATCH that writes nothing comes
      from the baseline comparison or from a trusted ledger document. */
  lemma SilentMatchHasTwoSources(
    l: seq<SuspiciousLogin>, user: ObjectId, email: string, baseline: Option<Obj>,
    current: Fingerprint, newId: ObjectId, now: nat, fault: Option<Call>)
    ensures var d := VerifyContextData(l, user, email, baseline, current, newId, now, fault);
            d.outcome.Match? && d.ledger == l ==>
              && baseline.Some?
              && (|| IsTrustedDevice(ContextView(current), UserContextData(baseline.value))
                  || (FindByContext(l, user, current).Some? && l[FindByContext(l, user, current).value].isTrusted))
  {
    if && fault != Some(ReadBaseline) && fault != Some(FindSuspicious) && baseline.Some?
       && !IsTrustedDevice(ContextView(current), UserContextData(baseline.value))
    {
      ConsultsLedger(l, user, email, baseline, current, newId, now, fault);
      SilentLedgerMatchIsTrusted(l, user, email, UserContextData(baseline.value), current, newId, now, fault);
    }
  }

  /** Within the ledger consultation, a MATCH that writes nothing comes from a
      trusted document found for the context. */
  lemma SilentLedgerMatchIsTrusted(
    l: seq<SuspiciousLogin>, user: ObjectId, email: string, userCtx: Obj,
    current: Fingerprint, newId: ObjectId, now: nat, fault: Option<Call>)
    ensures var d := Consult(l, user, email, userCtx, current, newId, now, fault);
            d.outcome.Match? && d.ledger == l ==>
              FindByContext(l, user, current).Some? && l[FindByContext(l, user, current).value].isTrusted
  {
    var found := FindByContext(l, user, current);
    if found.Some? && !l[found.value].isBlocked && !l[found.value].isTrusted {
      PendingDocumentEscalates(l, user, email, userCtx, current, newId, now, fault, found.value);
    }
  }

  /** A found document that is blocked gives BLOCKED; one that is trusted (and
      not blocked) gives MATCH. Blocked is tested first; neither writes. */
  lemma FlaggedContextDecidedByFlag(
    l: seq<SuspiciousLogin>, user: ObjectId, email: string, baseline: Option<Obj>,
    current: Fingerprint, newId: ObjectId, now: nat, fault: Option<Call>)
    requires baseline.Some? && fault != Some(ReadBaseline) && fault != Some(FindSuspicious)
    requires !IsTrustedDevice(ContextView(current), UserContextData(baseline.value))
    requires FindByContext(l, user, current).Some?
    ensures var r := l[FindByContext(l, user, current).value];
            var d := VerifyContextData(l, user, email, baseline, current, newId, now, fault);
            && (r.isBlocked ==> d == Decision(Blocked, l))
            && (!r.isBlocked && r.isTrusted ==> d == Decision(Match, l))
  {
  }

  /** A found pending document: its counter goes up by exactly one; when the
      counter read before the increment is already at the threshold, the
      document is also blocked (and untrusted) and the outcome is BLOCKED,
      otherwise SUSPICIOUS. A fault at the increment writes nothing; a fault
      at the block leaves the increment in place. */
  lemma PendingContextCounted(
    l: seq<SuspiciousLogin>, user: ObjectId, email: string, baseline: Option<Obj>,
    current: Fingerprint, newId: ObjectId, now: nat, fault: Option<Call>, i: nat)
    requires UniqueIds(l)
    requires baseline.Some? && fault != Some(ReadBaseline) && fault != Some(FindSuspicious)
    requires !IsTrustedDevice(ContextView(current), UserContextData(baseline.value))
    requires FindByContext(l, user, current) == Some(i)
    requires !l[i].isBlocked && !l[i].isTrusted
    ensures var n := l[i].unverifiedAttempts;
            var counted := l[i := l[i].(unverifiedAttempts := n + 1)];
            var d := VerifyContextData(l, user, email, baseline, current, newId, now, fault);
            && (fault == Some(CountAttempt) ==> d == Decision(Error, l))
            && (fault != Some(CountAttempt) && n < BlockThreshold ==> d == Decision(Suspicious, counted))
            && (fault != Some(CountAttempt) && n >= BlockThreshold && fault != Some(BlockContext) ==>
                  d == Decision(Blocked, counted[i := counted[i].(isBlocked := true, isTrusted := false)]))
            && (n >= BlockThreshold && fault == Some(BlockContext) ==> d == Decision(Error, counted))
  {
    ConsultsLedger(l, user, email, baseline, current, newId, now, fault);
    PendingDocumentEscalates(l, user, email, UserContextData(baseline.value), current, newId, now, fault, i);
    EscalateEffect(l, i, fault);
  }

  /** A context with no document yet: exactly one document is created, with
      the user's e-mail, the eight current fields, a zero counter and both
      flags false; the report names the differing fields and carries the new
      id, and an empty report is a MATCH. */
  lemma UnseenContextRecorded(
    l: seq<SuspiciousLogin>, user: ObjectId, email: string, baseline: Option<Obj>,
    current: Fingerprint, newId: ObjectId, now: nat)
    requires baseline.Some?
    requires !IsTrustedDevice(ContextView(current), UserContextData(baseline.value))
    requires FindByContext(l, user, current).None?
    requires Insert(l, NewSuspiciousLogin(newId, user, email, current, now)).Some?
    ensures var d := VerifyContextData(l, user, email, baseline, current, newId, now, None);
            var props := MismatchedProps(UserContextData(baseline.value), current);
            && d.ledger == l + [SuspiciousLogin(newId, user, email, current, 0, false, false, now)]
            && (props != [] ==> d.outcome == Mismatch(props, Snapshot(now, Some(newId), current)))
            && (props == [] ==> d.outcome == Match)
  {
  }

  /** Against a fingerprint baseline the report names exactly the reported
      fields that changed; platform and os are never named. */
  lemma ReportNamesChangedFields(b: Fingerprint, current: Fingerprint)
    ensures var props := MismatchedProps(UserContextData(ContextView(b)), current);
            && (forall f :: Name(f) in props <==> f in ReportedFields && Get(b, f) != Get(current, f))
            && "platform" !in props && "os" !in props
  {
    var props := MismatchedProps(UserContextData(ContextView(b)), current);
    assert Name(Platform) == "platform" && Name(Os) == "os";
    assert Platform !in ReportedFields && Os !in ReportedFields;
  }

  /** With sane inputs (an e-mail, a complete fingerprint and an unused id)
      a decision is ERROR only when a storage call fails. */
  lemma NoErrorWithoutFault(
    l: seq<SuspiciousLogin>, user: ObjectId, email: string, baseline: Option<Obj>,
    current: Fingerprint, newId: ObjectId, now: nat)
    requires email != "" && Complete(current)
    requires forall j :: 0 <= j < |l| ==> l[j].id != newId
    ensures !VerifyContextData(l, user, email, baseline, current, newId, now, None).outcome.Error?
  {
  }

  /** Every decision keeps the ledger invariant: unique ids, one document per
      (user, fingerprint), never both flags, every required field set. */
  lemma DecisionPreservesInvariant(
    l: seq<SuspiciousLogin>, user: ObjectId, email: string, baseline: Option<Obj>,
    current: Fingerprint, newId: ObjectId, now: nat, fault: Option<Call>)
    requires Invariant(l)
    ensures Invariant(VerifyContextData(l, user, email, baseline, current, newId, now, fault).ledger)
  {
    var d := VerifyContextData(l, user, email, baseline, current, newId, now, fault);
    var found := FindByContext(l, user, current);
    var r := NewSuspiciousLogin(newId, user, email, current, now);
    if d.ledger == l {
    } else {
      ConsultsLedger(l, user, email, baseline, current, newId, now, fault);
      if found.None? {
        InsertPreservesInvariant(l, r);
      } else {
        PendingDocumentEscalates(l, user, email, UserContextData(baseline.value), current, newId, now, fault, found.value);
        EscalatePreservesInvariant(l, found.value, fault);
      }
    }
  }

  /** Replacing the document found for a context by one for the same context
      keeps it the one found. */
  lemma ReplacedStillFound(l: seq<SuspiciousLogin>, user: ObjectId, fp: Fingerprint, i: nat, r: SuspiciousLogin)
    requires FindByContext(l, user, fp) == Some(i) && MatchesContext(r, user, fp)
    ensures FindByContext(l[i := r], user, fp) == Some(i)
  {
    assert l[i := r][i] == r;
  }

  /** A document appended for a context no document matched is the one found
      for it. */
  lemma AppendedFound(l: seq<SuspiciousLogin>, user: ObjectId, fp: Fingerprint, r: SuspiciousLogin)
    requires FindByContext(l, user, fp).None? && MatchesContext(r, user, fp)
    ensures FindByContext(l + [r], user, fp) == Some(|l|)
  {
    assert (l + [r])[|l|] == r;
  }

  /** One more sign-in from a pending context below the threshold: the outcome
      is SUSPICIOUS, the counter goes up by one, the document is still the one
      found for the context, and it is still pending. */
  lemma PendingLoginStep(
    l: seq<SuspiciousLogin>, user: ObjectId, email: string, baseline: Option<Obj>,
    current: Fingerprint, newId: ObjectId, now: nat, i: nat)
    requires UniqueIds(l) && baseline.Some?
    requires !IsTrustedDevice(ContextView(current), UserContextData(baseline.value))
    requires FindByContext(l, user, current) == Some(i)
    requires !l[i].isBlocked && !l[i].isTrusted && l[i].unverifiedAttempts < BlockThreshold
    ensures var counted := l[i := l[i].(unverifiedAttempts := l[i].unverifiedAttempts + 1)];
            && VerifyContextData(l, user, email, baseline, current, newId, now, None) == Decision(Suspicious, counted)
            && UniqueIds(counted)
            && FindByContext(counted, user, current) == Some(i)
  {
    PendingContextCounted(l, user, email, baseline, current, newId, now, None, i);
    ReplacedStillFound(l, user, current, i, l[i].(unverifiedAttempts := l[i].unverifiedAttempts + 1));
  }

  /** The next sign-in from a pending context at the threshold: BLOCKED, the
      counter goes up by one, and the document is blocked and untrusted. */
  lemma BlockingLoginStep(
    l: seq<SuspiciousLogin>, user: ObjectId, email: string, baseline: Option<Obj>,
    current: Fingerprint, newId: ObjectId, now: nat, i: nat)
    requires UniqueIds(l) && baseline.Some?
    requires !IsTrustedDevice(ContextView(current), UserContextData(baseline.value))
    requires FindByContext(l, user, current) == Some(i)
    requires !l[i].isBlocked && !l[i].isTrusted && l[i].unverifiedAttempts == BlockThreshold
    ensures var blocked := l[i := l[i].(unverifiedAttempts := BlockThreshold + 1, isBlocked := true, isTrusted := false)];
            && VerifyContextData(l, user, email, baseline, current, newId, now, None) == Decision(Blocked, blocked)
            && FindByContext(blocked, user, current) == Some(i)
  {
    var r := l[i].(unverifiedAttempts := BlockThreshold + 1, isBlocked := true, isTrusted := false);
    assert VerifyContextData(l, user, email, baseline, current, newId, now, None) == Decision(Blocked, l[i := r]) by {
      PendingContextCounted(l, user, email, baseline, current, newId, now, None, i);
      CountedThenBlocked(l, i);
    }
    ReplacedStillFound(l, user, current, i, r);
  }

  /** Counting and then blocking the document at `i` is one update of it. */
  lemma CountedThenBlocked(l: seq<SuspiciousLogin>, i: nat)
    requires i < |l|
    ensures var counted := l[i := l[i].(unverifiedAttempts := l[i].unverifiedAttempts + 1)];
            counted[i := counted[i].(isBlocked := true, isTrusted := false)]
              == l[i := l[i].(unverifiedAttempts := l[i].unverifiedAttempts + 1, isBlocked := true, isTrusted := false)]
  {
  }

  /** The ledger with the found document's counter at `n` and its block
      flag at `blocked`. */
  function WithAttempts(l: seq<SuspiciousLogin>, i: nat, n: nat, blocked: bool): seq<SuspiciousLogin>
    requires i < |l|
  {
    l[i := l[i].(unverifiedAttempts := n, isBlocked := blocked)]
  }

  /** Setting the counter and the block flag keeps the ids and the document
      found for the context. */
  lemma WithAttemptsKeepsLookup(l: seq<SuspiciousLogin>, user: ObjectId, current: Fingerprint, i: nat, n: nat, blocked: bool)
    requires UniqueIds(l) && FindByContext(l, user, current) == Some(i)
    ensures UniqueIds(WithAttempts(l, i, n, blocked))
    ensures FindByContext(WithAttempts(l, i, n, blocked), user, current) == Some(i)
    ensures WithAttempts(l, i, n, blocked)[i] == l[i].(unverifiedAttempts := n, isBlocked := blocked)
  {
    var l' := WithAttempts(l, i, n, blocked);
    ReplacedStillFound(l, user, current, i, l'[i]);
    forall j | 0 <= j < |l| ensures l'[j].id == l[j].id { }
  }

  /** Once blocked, a context stays BLOCKED and nothing is written. */
  lemma BlockedStaysBlocked(
    l: seq<SuspiciousLogin>, user: ObjectId, email: string, baseline: Option<Obj>,
    current: Fingerprint, newId: ObjectId, now: nat, i: nat, n: nat)
    requires UniqueIds(l) && baseline.Some?
    requires !IsTrustedDevice(ContextView(current), UserContextData(baseline.value))
    requires FindByContext(l, user, current) == Some(i)
    ensures VerifyContextData(WithAttempts(l, i, n, true), user, email, baseline, current, newId, now, None)
              == Decision(Blocked, WithAttempts(l, i, n, true))
  {
    WithAttemptsKeepsLookup(l, user, current, i, n, true);
    FlaggedContextDecidedByFlag(WithAttempts(l, i, n, true), user, email, baseline, current, newId, now, None);
  }

  /** The escalation of a pending context end to end: from a fresh document
      (counter 0), three sign-ins are SUSPICIOUS, the fourth is BLOCKED with
      the counter at 4, and the fifth is BLOCKED with nothing written. */
  lemma FiveSignInsFromPending(
    l: seq<SuspiciousLogin>, user: ObjectId, email: string, baseline: Option<Obj>,
    current: Fingerprint, newId: ObjectId, now: nat, i: nat)
    requires UniqueIds(l) && baseline.Some?
    requires !IsTrustedDevice(ContextView(current), UserContextData(baseline.value))
    requires FindByContext(l, user, current) == Some(i)
    requires !l[i].isBlocked && !l[i].isTrusted && l[i].unverifiedAttempts == 0
    ensures var d1 := VerifyContextData(l, user, email, baseline, current, newId, now, None);
            var d2 := VerifyContextData(d1.ledger, user, email, baseline, current, newId, now, None);
            var d3 := VerifyContextData(d2.ledger, user, email, baseline, current, newId, now, None);
            var d4 := VerifyContextData(d3.ledger, user, email, baseline, current, newId, now, None);
            var d5 := VerifyContextData(d4.ledger, user, email, baseline, current, newId, now, None);
            && d1.outcome == Suspicious && d2.outcome == Suspicious && d3.outcome == Suspicious
            && d4 == Decision(Blocked, l[i := l[i].(unverifiedAttempts := BlockThreshold + 1, isBlocked := true)])
            && d5 == d4
  {
    TwoCountedSignIns(l, user, email, baseline, current, newId, now, i);
    var l2 := l[i := l[i].(unverifiedAttempts := l[i].unverifiedAttempts + 2)];
    PendingLoginStep(l2, user, email, baseline, current, newId, now, i);
    var l3 := l2[i := l2[i].(unverifiedAttempts := l2[i].unverifiedAttempts + 1)];
    BlockingLoginStep(l3, user, email, baseline, current, newId, now, i);
    var l4 := l3[i := l3[i].(unverifiedAttempts := BlockThreshold + 1, isBlocked := true, isTrusted := false)];
    EscalationLedger(l, i);
    FlaggedContextDecidedByFlag(l4, user, email, baseline, current, newId, now, None);
  }

  /** Two counts, a third, and the block leave a fresh document at counter
      4, blocked, and nothing else changed. */
  lemma EscalationLedger(l: seq<SuspiciousLogin>, i: nat)
    requires i < |l| && l[i].unverifiedAttempts == 0 && !l[i].isTrusted
    ensures var l2 := l[i := l[i].(unverifiedAttempts := l[i].unverifiedAttempts + 2)];
            var l3 := l2[i := l2[i].(unverifiedAttempts := l2[i].unverifiedAttempts + 1)];
            && l3[i].unverifiedAttempts == BlockThreshold
            && l3[i := l3[i].(unverifiedAttempts := BlockThreshold + 1, isBlocked := true, isTrusted := false)]
                 == l[i := l[i].(unverifiedAttempts := BlockThreshold + 1, isBlocked := true)]
  {
    var l2 := l[i := l[i].(unverifiedAttempts := l[i].unverifiedAttempts + 2)];
    var l3 := l2[i := l2[i].(unverifiedAttempts := l2[i].unverifiedAttempts + 1)];
    UpdatedTwice(l, i, l2[i], l3[i]);
    UpdatedTwice(l, i, l3[i], l3[i].(unverifiedAttempts := BlockThreshold + 1, isBlocked := true, isTrusted := false));
  }

  /** Two sign-ins from a pending document whose counter is one below the
      threshold or lower: SUSPICIOUS both times, and the counter goes up by
      two. */
  lemma TwoCountedSignIns(
    l: seq<SuspiciousLogin>, user: ObjectId, email: string, baseline: Option<Obj>,
    current: Fingerprint, newId: ObjectId, now: nat, i: nat)
    requires UniqueIds(l) && baseline.Some?
    requires !IsTrustedDevice(ContextView(current), UserContextData(baseline.value))
    requires FindByContext(l, user, current) == Some(i)
    requires !l[i].isBlocked && !l[i].isTrusted && l[i].unverifiedAttempts + 1 < BlockThreshold
    ensures var d1 := VerifyContextData(l, user, email, baseline, current, newId, now, None);
            var d2 := VerifyContextData(d1.ledger, user, email, baseline, current, newId, now, None);
            var l2 := l[i := l[i].(unverifiedAttempts := l[i].unverifiedAttempts + 2)];
            && d1.outcome == Suspicious && d2.outcome == Suspicious
            && d2.ledger == l2 && UniqueIds(l2) && FindByContext(l2, user, current) == Some(i)
  {
    PendingLoginStep(l, user, email, baseline, current, newId, now, i);
    var l1 := l[i := l[i].(unverifiedAttempts := l[i].unverifiedAttempts + 1)];
    PendingLoginStep(l1, user, email, baseline, current, newId, now, i);
    UpdatedTwice(l, i, l[i].(unverifiedAttempts := l[i].unverifiedAttempts + 1),
                 l1[i].(unverifiedAttempts := l1[i].unverifiedAttempts + 1));
  }

  /** Two updates at the same position: the second one wins. */
  lemma UpdatedTwice<T>(s: seq<T>, i: nat, a: T, b: T)
    requires i < |s|
    ensures s[i := a][i := b] == s[i := b]
  {
  }

  /** A change of platform or os alone is not reported: those two fields are
      never compared. */
  lemma PlatformOnlyChangeNotReported(b: Fingerprint, current: Fingerprint)
    requires current == b.(platform := current.platform, os := current.os)
    ensures MismatchedProps(UserContextData(ContextView(b)), current) == []
  {
    var u := UserContextData(ContextView(b));
    forall f ensures !Differs(u, current, f) || f == Platform || f == Os {
      assert Prop(u, FieldKey(f)) == Str(Get(b, f));
    }
    var fs := DifferingFields(u, current, ReportedFields);
    assert Platform !in ReportedFields && Os !in ReportedFields;
    assert forall f :: f !in fs;
    EmptyWithoutMembers(fs);
    assert MismatchedProps(u, current) == Names(fs);
  }

  /** A list with no member is empty. */
  lemma EmptyWithoutMembers(fs: seq<Field>)
    ensures (forall f :: f !in fs) ==> fs == []
  {
    if |fs| > 0 {
      assert fs[0] in fs;
    }
  }

  /** A rejected storage call is caught and becomes ERROR: the baseline read
      always runs, the lookup runs once the baseline did not match, and in
      neither case is anything written. */
  lemma EarlyFaultGivesError(
    l: seq<SuspiciousLogin>, user: ObjectId, email: string, baseline: Option<Obj>,
    current: Fingerprint, newId: ObjectId, now: nat)
    ensures VerifyContextData(l, user, email, baseline, current, newId, now, Some(ReadBaseline)) == Decision(Error, l)
    ensures baseline.Some? && !IsTrustedDevice(ContextView(current), UserContextData(baseline.value)) ==>
              VerifyContextData(l, user, email, baseline, current, newId, now, Some(FindSuspicious)) == Decision(Error, l)
  {
  }

  /** The lookup is by exact match: a document found for one fingerprint is
      never the one found for a fingerprint that differs in any field. */
  lemma LookupIsExact(l: seq<SuspiciousLogin>, user: ObjectId, fp: Fingerprint, other: Fingerprint, f: Field)
    requires FindByContext(l, user, fp).Some? && Get(other, f) != Get(fp, f)
    ensures FindByContext(l, user, other) != FindByContext(l, user, fp)
  {
  }
}
