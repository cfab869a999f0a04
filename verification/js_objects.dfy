/** Just enough of JavaScript's object semantics to state what the three
    comparison helpers of server/controllers/auth.controller.ts (lines 32-47)
    do: they walk `Object.keys` of one object and compare each property with
    `===` against the same property of another object, where a missing
    property reads as `undefined`. */
module JsObjects {
  import opened Fingerprints

  /** The property names that occur on the objects the engine reads: the
      eight fingerprint fields, the two fields of a Preference, and the two
      own properties of a hydrated Mongoose document, `$__` (its internal
      state) and `_doc` (its raw values). */
  datatype Key =
    | FieldKey(field: Field)
    | UserKey
    | EnableContextBasedAuthKey
    | InternalStateKey
    | RawDocKey

  /** A property value; `Undefined` is what reading an absent property gives,
      and `Internal` is an object-valued property, which `===` never equates
      with a string or with `undefined`. */
  datatype Value = Undefined | Str(s: string) | Bool(b: bool) | Oid(oid: nat) | Internal

  type Obj = map<Key, Value>

  /** `o[k]`: the stored value, or `undefined` when `k` is not an own key. */
  function Prop(o: Obj, k: Key): Value {
    if k in o then o[k] else Undefined
  }

  /** `Object.keys(a).every((k) => a[k] === b[k])`. */
  predicate EveryKeyEqual(a: Obj, b: Obj) {
    forall k :: k in a ==> Prop(a, k) == Prop(b, k)
  }

  /** `Object.keys(a).some((k) => a[k] !== b[k])`. */
  predicate SomeKeyDiffers(a: Obj, b: Obj) {
    exists k :: k in a && Prop(a, k) != Prop(b, k)
  }

  /** `every` and `some` with the negated test are complementary. */
  lemma SomeIffNotEvery(a: Obj, b: Obj)
    ensures SomeKeyDiffers(a, b) <==> !EveryKeyEqual(a, b)
  {
  }

  /** The object `getCurrentContextData` returns: exactly the eight fields. */
  function ContextView(fp: Fingerprint): (o: Obj)
    ensures forall k :: k in o <==> k.FieldKey?
    ensures forall f :: Prop(o, FieldKey(f)) == Str(Get(fp, f))
  {
    var o := map[
      FieldKey(Ip) := Str(fp.ip),
      FieldKey(Country) := Str(fp.country),
      FieldKey(City) := Str(fp.city),
      FieldKey(Browser) := Str(fp.browser),
      FieldKey(Platform) := Str(fp.platform),
      FieldKey(Os) := Str(fp.os),
      FieldKey(Device) := Str(fp.device),
      FieldKey(DeviceType) := Str(fp.deviceType)
    ];
    assert forall k: Key | k.FieldKey? :: k in o by {
      forall k: Key | k.FieldKey?
        ensures k in o
      {
        FieldCases(k.field);
      }
    }
    o
  }

  /** Comparing two context objects key by key is fingerprint equality. */
  lemma ContextViewsEqualIff(a: Fingerprint, b: Fingerprint)
    ensures EveryKeyEqual(ContextView(a), ContextView(b)) <==> a == b
  {
    if EveryKeyEqual(ContextView(a), ContextView(b)) {
      forall f
        ensures Get(a, f) == Get(b, f)
      {
        assert FieldKey(f) in ContextView(a);
        assert Prop(ContextView(a), FieldKey(f)) == Prop(ContextView(b), FieldKey(f));
      }
      EqualIffAllFieldsAgree(a, b);
    }
  }
}
