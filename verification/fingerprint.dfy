/** The login-context fingerprint: the eight strings describing where and on
    what a sign-in comes from (the `ContextData` shape of
    server/utils/contextData.ts, repeated field for field in the
    SuspiciousLogin and Context models). */
module Fingerprints {

  /** The eight fingerprint fields, in the order the schemas declare them. */
  datatype Field = Ip | Country | City | Browser | Platform | Os | Device | DeviceType

  datatype Fingerprint = Fingerprint(
    ip: string,
    country: string,
    city: string,
    browser: string,
    platform: string,
    os: string,
    device: string,
    deviceType: string)

  /** Every field, in declaration order. */
  const AllFields: seq<Field> := [Ip, Country, City, Browser, Platform, Os, Device, DeviceType]

  lemma FieldCases(f: Field)
    ensures f in AllFields
  {
  }

  /** Reads one field by name. */
  function Get(fp: Fingerprint, f: Field): string {
    match f
    case Ip => fp.ip
    case Country => fp.country
    case City => fp.city
    case Browser => fp.browser
    case Platform => fp.platform
    case Os => fp.os
    case Device => fp.device
    case DeviceType => fp.deviceType
  }

  /** The property name the source uses for each field. */
  function Name(f: Field): string {
    match f
    case Ip => "ip"
    case Country => "country"
    case City => "city"
    case Browser => "browser"
    case Platform => "platform"
    case Os => "os"
    case Device => "device"
    case DeviceType => "deviceType"
  }

  /** Distinct fields have distinct property names. */
  lemma NameInjective(f: Field, g: Field)
    ensures Name(f) == Name(g) <==> f == g
  {
  }

  /** Two fingerprints are equal exactly when all eight fields agree. */
  lemma EqualIffAllFieldsAgree(a: Fingerprint, b: Fingerprint)
    ensures (forall f :: Get(a, f) == Get(b, f)) <==> a == b
  {
    if forall f :: Get(a, f) == Get(b, f) {
      assert Get(a, Ip) == Get(b, Ip) && Get(a, Country) == Get(b, Country);
      assert Get(a, City) == Get(b, City) && Get(a, Browser) == Get(b, Browser);
      assert Get(a, Platform) == Get(b, Platform) && Get(a, Os) == Get(b, Os);
      assert Get(a, Device) == Get(b, Device) && Get(a, DeviceType) == Get(b, DeviceType);
    }
  }

  /** Mongoose's `required` validator rejects an empty string, so a stored
      record needs every field non-empty. */
  predicate Complete(fp: Fingerprint) {
    forall f :: Get(fp, f) != ""
  }
}
