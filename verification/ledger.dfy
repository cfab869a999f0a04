/** The SuspiciousLogin collection (server/models/suspiciousLogin.model.ts):
    one document per (user, fingerprint) the engine has seen differ from the
    user's baseline, with an unverified-attempt counter and the trust/block
    flags. The collection is a sequence in insertion order, which is the order
    `findOne` scans it in. */
module Ledger {
  import opened Wrappers
  import opened Sequences
  import opened Fingerprints
  import opened JsObjects
  import opened ObjectIds

  datatype SuspiciousLogin = SuspiciousLogin(
    id: ObjectId,
    user: ObjectId,
    email: string,
    fp: Fingerprint,
    unverifiedAttempts: nat,
    isTrusted: bool,
    isBlocked: bool,
    createdAt: nat)

  /** The document `new SuspiciousLogin({...})` builds: the caller supplies
      user, e-mail and the eight fields; the schema supplies the counter and
      both flags; the timestamps option supplies the creation time. */
  function NewSuspiciousLogin(id: ObjectId, user: ObjectId, email: string, fp: Fingerprint, now: nat): (r: SuspiciousLogin)
    ensures r.unverifiedAttempts == 0 && !r.isTrusted && !r.isBlocked
    ensures MatchesContext(r, user, fp) && r.email == email && r.id == id && r.createdAt == now
  {
    SuspiciousLogin(id, user, email, fp, 0, false, false, now)
  }

  /** The flags are never both set. */
  predicate Consistent(r: SuspiciousLogin) {
    !(r.isTrusted && r.isBlocked)
  }

  /** What the schema's `required` validators accept: every required string
      non-empty. */
  predicate Savable(r: SuspiciousLogin) {
    r.email != "" && Complete(r.fp)
  }

  predicate MatchesContext(r: SuspiciousLogin, user: ObjectId, fp: Fingerprint) {
    r.user == user && r.fp == fp
  }

  /** The found document as `Object.keys` sees it. `findOne` returns a
      hydrated Mongoose document, whose own enumerable properties are its
      internal state (`$__`) and its raw values (`_doc`), both objects; the
      schema paths (the eight fields, owner, e-mail, counter, flags) are
      accessors on the prototype and are not listed. Reading a field through
      its accessor is modelled by reading the `SuspiciousLogin` itself. */
  function RecordView(r: SuspiciousLogin): (o: Obj)
    ensures RawDocKey in o && Prop(o, RawDocKey) == Internal
    ensures forall k :: k in o ==> !k.FieldKey?
  {
    map[InternalStateKey := Internal, RawDocKey := Internal]
  }

  /** `findOne({user, ip, country, ..., deviceType})`: the first document of
      this user whose eight fields all equal `fp`. */
  function FindByContext(l: seq<SuspiciousLogin>, user: ObjectId, fp: Fingerprint): (r: Option<nat>)
    ensures r.Some? ==> r.value < |l| && MatchesContext(l[r.value], user, fp)
    ensures r.Some? ==> forall j :: 0 <= j < r.value ==> !MatchesContext(l[j], user, fp)
    ensures r.None? <==> forall j :: 0 <= j < |l| ==> !MatchesContext(l[j], user, fp)
  {
    FindFirst(l, (x: SuspiciousLogin) => MatchesContext(x, user, fp))
  }

  /** `findById(id)`: the first document with this `_id`. */
  function FindById(l: seq<SuspiciousLogin>, id: ObjectId): (r: Option<nat>)
    ensures r.Some? ==> r.value < |l| && l[r.value].id == id
    ensures r.Some? ==> forall j :: 0 <= j < r.value ==> l[j].id != id
    ensures r.None? <==> forall j :: 0 <= j < |l| ==> l[j].id != id
  {
    FindFirst(l, (x: SuspiciousLogin) => x.id == id)
  }

  /** The two updates the core applies by id: `$inc: {unverifiedAttempts: 1}`
      and setting both flags. */
  datatype Patch = IncrementAttempts | SetFlags(isTrusted: bool, isBlocked: bool)

  function Apply(r: SuspiciousLogin, p: Patch): (r': SuspiciousLogin)
    ensures r'.id == r.id && r'.user == r.user && r'.email == r.email
    ensures r'.fp == r.fp && r'.createdAt == r.createdAt
    ensures p.IncrementAttempts? ==>
              && r'.unverifiedAttempts == r.unverifiedAttempts + 1
              && r'.isTrusted == r.isTrusted && r'.isBlocked == r.isBlocked
    ensures p.SetFlags? ==>
              && r'.unverifiedAttempts == r.unverifiedAttempts
              && r'.isTrusted == p.isTrusted && r'.isBlocked == p.isBlocked
  {
    match p
    case IncrementAttempts => r.(unverifiedAttempts := r.unverifiedAttempts + 1)
    case SetFlags(t, b) => r.(isTrusted := t, isBlocked := b)
  }

  /** `findByIdAndUpdate(id, patch)`: patches the document with that id, if
      any; every other document is untouched. */
  function UpdateById(l: seq<SuspiciousLogin>, id: ObjectId, p: Patch): (l': seq<SuspiciousLogin>)
    ensures |l'| == |l|
    ensures FindById(l, id).None? ==> l' == l
    ensures FindById(l, id).Some? ==> l' == l[FindById(l, id).value := Apply(l[FindById(l, id).value], p)]
  {
    match FindById(l, id)
    case None => l
    case Some(i) => l[i := Apply(l[i], p)]
  }

  /** `save()` of a new document: rejected (the promise throws) when a required
      field is empty or the `_id` is already taken; otherwise appended. */
  function Insert(l: seq<SuspiciousLogin>, r: SuspiciousLogin): (res: Option<seq<SuspiciousLogin>>)
    ensures res.Some? <==> Savable(r) && forall j :: 0 <= j < |l| ==> l[j].id != r.id
    ensures res.Some? ==> res.value == l + [r]
  {
    if !Savable(r) || FindById(l, r.id).Some? then None else Some(l + [r])
  }

  predicate UniqueIds(l: seq<SuspiciousLogin>) {
    forall i, j :: 0 <= i < j < |l| ==> l[i].id != l[j].id
  }

  /** At most one document per (user, fingerprint). */
  predicate UniqueContexts(l: seq<SuspiciousLogin>) {
    forall i, j :: 0 <= i < j < |l| ==> !MatchesContext(l[j], l[i].user, l[i].fp)
  }

  /** What every reachable collection satisfies. */
  predicate Invariant(l: seq<SuspiciousLogin>) {
    && UniqueIds(l)
    && UniqueContexts(l)
    && (forall i :: 0 <= i < |l| ==> Consistent(l[i]) && Savable(l[i]))
  }

  /** With unique ids, looking a document up by its own id finds it. */
  lemma FindOwnId(l: seq<SuspiciousLogin>, i: nat)
    requires UniqueIds(l) && i < |l|
    ensures FindById(l, l[i].id) == Some(i)
  {
  }

  /** A fresh document keeps the invariant when nothing matched its context. */
  lemma InsertPreservesInvariant(l: seq<SuspiciousLogin>, r: SuspiciousLogin)
    requires Invariant(l)
    requires Insert(l, r).Some?
    requires FindByContext(l, r.user, r.fp).None?
    requires Consistent(r)
    ensures Invariant(Insert(l, r).value)
  {
    var l' := l + [r];
    assert forall i :: 0 <= i < |l| ==> l'[i] == l[i];
  }

  /** Patching by id keeps the invariant as long as the patch does not set
      both flags. */
  lemma UpdatePreservesInvariant(l: seq<SuspiciousLogin>, id: ObjectId, p: Patch)
    requires Invariant(l)
    requires p.SetFlags? ==> !(p.isTrusted && p.isBlocked)
    ensures Invariant(UpdateById(l, id, p))
  {
  }
}
