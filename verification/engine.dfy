/** The context-based login trust engine: `verifyContextData` and its helpers
    in server/controllers/auth.controller.ts. Given the user's baseline
    document, the fingerprint of the current request and the SuspiciousLogin
    collection, it decides one outcome and returns the collection as it stands
    after the writes the decision made. */
module Engine {
  import opened Wrappers
  import opened Fingerprints
  import opened JsObjects
  import opened ObjectIds
  import opened Ledger

  /** The object returned for a new suspicious context (`newSuspiciousData`):
      the creation time, the new document's id, and its eight fields. The
      branch at lines 142-158 builds it without an id. */
  datatype Snapshot = Snapshot(time: nat, id: Option<ObjectId>, fp: Fingerprint)

  /** The values of the `types` enum plus the `{mismatchedProps,
      currentContextData}` object. */
  datatype Outcome =
    | NoContextData
    | Match
    | Blocked
    | Suspicious
    | Error
    | Mismatch(mismatchedProps: seq<string>, currentContextData: Snapshot)

  /** The storage calls of one decision, in the order they are made. A fault
      names the call whose promise rejects; calls before it have taken
      effect. */
  datatype Call = ReadBaseline | FindSuspicious | SaveSuspicious | CountAttempt | BlockContext

  /** The outcome together with the collection after the decision. */
  datatype Decision = Decision(outcome: Outcome, ledger: seq<SuspiciousLogin>)

  /** The counter value (read before the increment) from which a context is
      blocked. */
  const BlockThreshold: nat := 3

  /** Lines 88-97: the eight fingerprint properties read off whatever
      document the baseline query returned; a property the document does not
      have reads as `undefined`. */
  function UserContextData(doc: Obj): (u: Obj)
    ensures forall k :: k in u <==> k.FieldKey?
    ensures forall f :: Prop(u, FieldKey(f)) == Prop(doc, FieldKey(f))
  {
    var u := map[
      FieldKey(Ip) := Prop(doc, FieldKey(Ip)),
      FieldKey(Country) := Prop(doc, FieldKey(Country)),
      FieldKey(City) := Prop(doc, FieldKey(City)),
      FieldKey(Browser) := Prop(doc, FieldKey(Browser)),
      FieldKey(Platform) := Prop(doc, FieldKey(Platform)),
      FieldKey(Os) := Prop(doc, FieldKey(Os)),
      FieldKey(Device) := Prop(doc, FieldKey(Device)),
      FieldKey(DeviceType) := Prop(doc, FieldKey(DeviceType))
    ];
    assert forall k: Key | k.FieldKey? :: k in u by {
      forall k: Key | k.FieldKey?
        ensures k in u
      {
        FieldCases(k.field);
      }
    }
    u
  }

  /** `isTrustedDevice(current, user)`: every property of the baseline object
      equals the current context's. */
  predicate IsTrustedDevice(current: Obj, user: Obj) {
    EveryKeyEqual(user, current)
  }

  /** `isSuspiciousContextChanged(stored, current)`: some property of the
      stored document differs from the current context's. */
  predicate IsSuspiciousContextChanged(stored: Obj, current: Obj) {
    SomeKeyDiffers(stored, current)
  }

  /** `isOldDataMatched(stored, current)`: every property of the stored
      document equals the current context's. */
  predicate IsOldDataMatched(stored: Obj, current: Obj) {
    EveryKeyEqual(stored, current)
  }

  /** The fields `mismatchedProps` reports, in the order lines 221-238 test
      them. Platform and os are not among them. */
  const ReportedFields: seq<Field> := [Ip, Browser, Device, DeviceType, Country, City]

  /** `userContextData.f !== newSuspiciousData.f`. */
  predicate Differs(user: Obj, fp: Fingerprint, f: Field) {
    Prop(user, FieldKey(f)) != Str(Get(fp, f))
  }

  /** A field's position in the order lines 221-238 test them; platform and
      os, never tested, come last. */
  function Rank(f: Field): nat {
    match f
    case Ip => 0
    case Browser => 1
    case Device => 2
    case DeviceType => 3
    case Country => 4
    case City => 5
    case Platform => 6
    case Os => 7
  }

  /** Strictly increasing rank: no repeats, in testing order. */
  predicate Ranked(fs: seq<Field>) {
    forall i, j :: 0 <= i < j < |fs| ==> Rank(fs[i]) < Rank(fs[j])
  }

  /** The fields of `fields` on which the baseline and the snapshot differ,
      keeping the order of `fields`. */
  function DifferingFields(user: Obj, fp: Fingerprint, fields: seq<Field>): (fs: seq<Field>)
    ensures forall f :: f in fs <==> f in fields && Differs(user, fp, f)
    ensures Ranked(fields) ==> Ranked(fs)
    ensures |fs| <= |fields|
  {
    if |fields| == 0 then []
    else
      var rest := DifferingFields(user, fp, fields[1..]);
      assert forall f :: f in fields <==> f == fields[0] || f in fields[1..];
      if Differs(user, fp, fields[0]) then
        var fs := [fields[0]] + rest;
        assert Ranked(fields) ==> Ranked(fs) by {
          if Ranked(fields) {
            forall j | 0 < j < |fs|
              ensures Rank(fs[0]) < Rank(fs[j])
            {
              assert fs[j] == rest[j - 1] && rest[j - 1] in rest;
              var k :| 0 <= k < |fields[1..]| && fields[1..][k] == fs[j];
              assert fields[k + 1] == fs[j];
            }
          }
        }
        fs
      else
        rest
  }

  function Names(fs: seq<Field>): (ns: seq<string>)
    ensures |ns| == |fs|
    ensures forall i :: 0 <= i < |fs| ==> ns[i] == Name(fs[i])
  {
    seq(|fs|, i requires 0 <= i < |fs| => Name(fs[i]))
  }

  /** A field's name is listed exactly when the field is. */
  lemma NamesListed(fs: seq<Field>)
    ensures forall f :: Name(f) in Names(fs) <==> f in fs
  {
    var ns := Names(fs);
    forall f
      ensures Name(f) in ns <==> f in fs
    {
      if Name(f) in ns {
        var i :| 0 <= i < |ns| && ns[i] == Name(f);
        NameInjective(f, fs[i]);
      }
      if f in fs {
        var i :| 0 <= i < |fs| && fs[i] == f;
        assert ns[i] == Name(f);
      }
    }
  }

  /** Lines 219-238: the names of the reported fields on which the baseline
      object and the new snapshot differ, in the order they are tested. */
  function MismatchedProps(user: Obj, fp: Fingerprint): (props: seq<string>)
    ensures |props| <= |ReportedFields|
    ensures forall f :: Name(f) in props <==> f in ReportedFields && Differs(user, fp, f)
    ensures exists fs :: props == Names(fs) && Ranked(fs)
  {
    var fs := DifferingFields(user, fp, ReportedFields);
    DifferingReportedFields(user, fp);
    assert Names(fs) == Names(fs) && Ranked(fs);
    Names(fs)
  }

  /** The reported fields that differ come in testing order, and their names
      are listed exactly when they differ. */
  lemma DifferingReportedFields(user: Obj, fp: Fingerprint)
    ensures var fs := DifferingFields(user, fp, ReportedFields);
            && Ranked(fs) && |fs| <= |ReportedFields|
            && forall f :: Name(f) in Names(fs) <==> f in ReportedFields && Differs(user, fp, f)
  {
    var fs := DifferingFields(user, fp, ReportedFields);
    NamesListed(fs);
    ReportedFieldsRanked();
  }

  /** The reported fields are listed in testing order. */
  lemma ReportedFieldsRanked()
    ensures Ranked(ReportedFields)
  {
    forall i, j | 0 <= i < j < |ReportedFields|
      ensures Rank(ReportedFields[i]) < Rank(ReportedFields[j])
    {
      assert Rank(ReportedFields[i]) == i && Rank(ReportedFields[j]) == j;
    }
  }

  /** Lines 62-77 and what the caller does with the saved document: create
      the document for the current context and report how the context differs
      from the baseline. An empty report is a MATCH even though the document
      was created (lines 240-247). */
  function AddAndReport(
    l: seq<SuspiciousLogin>, user: ObjectId, email: string, userCtx: Obj,
    current: Fingerprint, newId: ObjectId, now: nat, fault: Option<Call>, withId: bool): (d: Decision)
    ensures d.outcome.Error? ==> d.ledger == l
    ensures !d.outcome.Error? ==> d.ledger == l + [NewSuspiciousLogin(newId, user, email, current, now)]
    ensures d.outcome.Error? <==>
              fault == Some(SaveSuspicious) || Insert(l, NewSuspiciousLogin(newId, user, email, current, now)).None?
    ensures d.outcome.Mismatch? || d.outcome.Match? || d.outcome.Error?
    ensures d.outcome.Mismatch? ==>
              && d.outcome.mismatchedProps == MismatchedProps(userCtx, current)
              && d.outcome.currentContextData == Snapshot(now, if withId then Some(newId) else None, current)
    ensures d.outcome.Match? <==> !d.outcome.Error? && MismatchedProps(userCtx, current) == []
  {
    var r := NewSuspiciousLogin(newId, user, email, current, now);
    if fault == Some(SaveSuspicious) then Decision(Error, l)
    else
      match Insert(l, r)
      case None => Decision(Error, l)
      case Some(l') =>
        var props := MismatchedProps(userCtx, current);
        var snap := Snapshot(now, if withId then Some(newId) else None, current);
        if |props| > 0 then Decision(Mismatch(props, snap), l') else Decision(Match, l')
  }

  /** Lines 160-190: count one more unverified attempt on a found pending
      document, then block it when the counter read before the increment had
      already reached the threshold. */
  function Escalate(l: seq<SuspiciousLogin>, existing: SuspiciousLogin, fault: Option<Call>): (d: Decision)
    ensures |d.ledger| == |l|
    ensures d.outcome.Suspicious? || d.outcome.Blocked? || d.outcome.Error?
    ensures fault.None? ==> !d.outcome.Error?
  {
    if fault == Some(CountAttempt) then Decision(Error, l)
    else
      var counted := UpdateById(l, existing.id, IncrementAttempts);
      // the threshold test reads the counter as it was before the increment
      if existing.unverifiedAttempts >= BlockThreshold then
        if fault == Some(BlockContext) then Decision(Error, counted)
        else Decision(Blocked, UpdateById(counted, existing.id, SetFlags(false, true)))
      else Decision(Suspicious, counted)
  }

  /** Lines 105-216: the part of the decision that consults the
      SuspiciousLogin collection, once the baseline did not match. */
  function Consult(
    l: seq<SuspiciousLogin>, user: ObjectId, email: string, userCtx: Obj,
    current: Fingerprint, newId: ObjectId, now: nat, fault: Option<Call>): (d: Decision)
    ensures !d.outcome.NoContextData?
    ensures d.outcome.Suspicious? || d.outcome.Blocked? ==> |d.ledger| == |l|
    ensures d.outcome.Mismatch? ==>
              && |d.outcome.mismatchedProps| > 0
              && d.outcome.currentContextData.fp == current
              && d.ledger == l + [NewSuspiciousLogin(newId, user, email, current, now)]
    ensures d.ledger == l
            || d.ledger == l + [NewSuspiciousLogin(newId, user, email, current, now)]
            || (|d.ledger| == |l| && FindByContext(l, user, current).Some?)
    ensures fault.None? ==> !d.outcome.Error? || Insert(l, NewSuspiciousLogin(newId, user, email, current, now)).None?
  {
    match FindByContext(l, user, current)
    case None => AddAndReport(l, user, email, userCtx, current, newId, now, fault, true)
    case Some(i) => Resolve(l, i, user, email, userCtx, current, newId, now, fault)
  }

  /** Lines 110-113 once the document at `i` was found for the context: a
      blocked document is BLOCKED, a trusted one MATCH, a pending one goes
      on to the comparison. */
  function Resolve(
    l: seq<SuspiciousLogin>, i: nat, user: ObjectId, email: string, userCtx: Obj,
    current: Fingerprint, newId: ObjectId, now: nat, fault: Option<Call>): (d: Decision)
    requires i < |l|
    ensures !d.outcome.NoContextData?
    ensures d.outcome.Suspicious? || d.outcome.Blocked? ==> |d.ledger| == |l|
    ensures d.outcome.Mismatch? ==>
              && |d.outcome.mismatchedProps| > 0
              && d.outcome.currentContextData.fp == current
              && d.ledger == l + [NewSuspiciousLogin(newId, user, email, current, now)]
    ensures d.ledger == l
            || d.ledger == l + [NewSuspiciousLogin(newId, user, email, current, now)]
            || |d.ledger| == |l|
    ensures fault.None? ==> !d.outcome.Error? || Insert(l, NewSuspiciousLogin(newId, user, email, current, now)).None?
  {
    if l[i].isBlocked then Decision(Blocked, l)
    else if l[i].isTrusted then Decision(Match, l)
    else
      var changed := IsSuspiciousContextChanged(RecordView(l[i]), ContextView(current));
      var matched := IsOldDataMatched(RecordView(l[i]), ContextView(current));
      Compare(l, i, user, email, userCtx, current, newId, now, fault, changed, matched)
  }

  /** Lines 116-216 for a pending document, given the results of the two
      comparisons of the stored document with the current context (`changed`
      for `isSuspiciousContextChanged`, `matched` for `isOldDataMatched`):
      one that looks changed is counted (or, with other fields, filed again);
      one that matches is a MATCH; anything else is filed as new. */
  function Compare(
    l: seq<SuspiciousLogin>, i: nat, user: ObjectId, email: string, userCtx: Obj,
    current: Fingerprint, newId: ObjectId, now: nat, fault: Option<Call>,
    changed: bool, matched: bool): (d: Decision)
    requires i < |l|
    ensures !d.outcome.NoContextData?
    ensures d.outcome.Suspicious? || d.outcome.Blocked? ==> |d.ledger| == |l|
    ensures d.outcome.Mismatch? ==>
              && |d.outcome.mismatchedProps| > 0
              && d.outcome.currentContextData.fp == current
              && d.ledger == l + [NewSuspiciousLogin(newId, user, email, current, now)]
    ensures d.ledger == l
            || d.ledger == l + [NewSuspiciousLogin(newId, user, email, current, now)]
            || |d.ledger| == |l|
    ensures fault.None? ==> !d.outcome.Error? || Insert(l, NewSuspiciousLogin(newId, user, email, current, now)).None?
  {
    var existing := l[i];
    if changed then
      if existing.fp != current then
        // lines 142-158: a second document for the same context, reported without its id
        AddAndReport(l, user, email, userCtx, current, newId, now, fault, false)
      else Escalate(l, existing, fault)
    else if matched then Decision(Match, l)
    else AddAndReport(l, user, email, userCtx, current, newId, now, fault, true)
  }

  /** `verifyContextData`: the whole decision, every branch of lines 79-251
      including the ones no input reaches. `baseline` is the document the
      baseline query returned (None for `null`), `user` and `email` identify
      the signed-in user, `current` is the fingerprint of the request, `newId`
      and `now` are the id and timestamp the store gives a new document, and
      `fault` names the storage call that rejects, if any. Every rejection is
      caught and becomes ERROR. */
  function VerifyContextData(
    l: seq<SuspiciousLogin>, user: ObjectId, email: string, baseline: Option<Obj>,
    current: Fingerprint, newId: ObjectId, now: nat, fault: Option<Call>): (d: Decision)
    ensures d.outcome.NoContextData? <==> fault != Some(ReadBaseline) && baseline.None?
    ensures d.outcome.NoContextData? ==> d.ledger == l
    ensures d.outcome.Suspicious? || d.outcome.Blocked? ==> |d.ledger| == |l|
    ensures d.outcome.Mismatch? ==>
              && |d.outcome.mismatchedProps| > 0
              && d.outcome.currentContextData.fp == current
              && d.ledger == l + [NewSuspiciousLogin(newId, user, email, current, now)]
    ensures d.ledger == l
            || d.ledger == l + [NewSuspiciousLogin(newId, user, email, current, now)]
            || (|d.ledger| == |l| && FindByContext(l, user, current).Some?)
    ensures fault.None? ==> !d.outcome.Error? || Insert(l, NewSuspiciousLogin(newId, user, email, current, now)).None?
  {
    if fault == Some(ReadBaseline) then Decision(Error, l)
    else if baseline.None? then Decision(NoContextData, l)
    else
      var userCtx := UserContextData(baseline.value);
      if IsTrustedDevice(ContextView(current), userCtx) then Decision(Match, l)
      else if fault == Some(FindSuspicious) then Decision(Error, l)
      else Consult(l, user, email, userCtx, current, newId, now, fault)
  }
}
