/** `getCurrentContextData` (server/utils/contextData.ts): builds the
    fingerprint of the current request from the client address, the
    geolocation lookup of that address and the parsed user-agent. The lookup
    and the parser are outside the model; their results are inputs here. */
module ContextData {
  import opened Wrappers
  import opened Fingerprints

  /** What the geolocation lookup returns for an address; a missing or empty
      entry is falsy in JavaScript. */
  datatype Location = Location(country: Option<string>, city: Option<string>)

  /** The parts of the parsed user-agent the builder reads. */
  datatype Agent = Agent(
    browser: Option<string>,
    version: Option<string>,
    platform: Option<string>,
    os: Option<string>,
    device: Option<string>,
    isMobile: bool,
    isDesktop: bool,
    isTablet: bool)

  const Unknown := "unknown"

  /** The four values the device type can take, Mobile first. */
  const DeviceTypes: seq<string> := ["Mobile", "Desktop", "Tablet", Unknown]

  /** JavaScript truthiness of a possibly-undefined string. */
  predicate Truthy(s: Option<string>) {
    s.Some? && s.value != ""
  }

  /** `s ? s.toString() : "unknown"` and `s?.toString() || "unknown"` alike. */
  function OrUnknown(s: Option<string>): (r: string)
    ensures r != ""
    ensures Truthy(s) ==> r == s.value
    ensures !Truthy(s) ==> r == Unknown
  {
    if Truthy(s) then s.value else Unknown
  }

  /** A template-literal interpolation: `undefined` prints as "undefined". */
  function Interpolate(s: Option<string>): string {
    if s.Some? then s.value else "undefined"
  }

  function BrowserOf(agent: Option<Agent>): (b: string)
    ensures agent.Some? && Truthy(agent.value.browser) ==>
              b == agent.value.browser.value + " " + Interpolate(agent.value.version)
    ensures !(agent.Some? && Truthy(agent.value.browser)) ==> b == Unknown
  {
    if agent.Some? && Truthy(agent.value.browser)
    then agent.value.browser.value + " " + Interpolate(agent.value.version)
    else Unknown
  }

  /** Mobile wins over Desktop, Desktop over Tablet; no flag gives "unknown". */
  function DeviceTypeOf(agent: Option<Agent>): (t: string)
    ensures t in DeviceTypes
    ensures t == "Mobile" <==> agent.Some? && agent.value.isMobile
    ensures t == "Desktop" <==> agent.Some? && !agent.value.isMobile && agent.value.isDesktop
    ensures t == "Tablet" <==> agent.Some? && !agent.value.isMobile && !agent.value.isDesktop && agent.value.isTablet
  {
    var isMobile := agent.Some? && agent.value.isMobile;
    var isDesktop := agent.Some? && agent.value.isDesktop;
    var isTablet := agent.Some? && agent.value.isTablet;
    if isMobile then "Mobile"
    else if isDesktop then "Desktop"
    else if isTablet then "Tablet"
    else Unknown
  }

  /** The fingerprint of the current request. Every field is a non-empty
      string, so a document built from it always passes the `required`
      validators. */
  function GetCurrentContextData(ip: Option<string>, location: Option<Location>, agent: Option<Agent>): (fp: Fingerprint)
    ensures Complete(fp)
    ensures fp.ip == OrUnknown(ip)
    ensures fp.country == OrUnknown(if location.Some? then location.value.country else None)
    ensures fp.city == OrUnknown(if location.Some? then location.value.city else None)
    ensures fp.browser == BrowserOf(agent)
    ensures fp.platform == OrUnknown(if agent.Some? then agent.value.platform else None)
    ensures fp.os == OrUnknown(if agent.Some? then agent.value.os else None)
    ensures fp.device == OrUnknown(if agent.Some? then agent.value.device else None)
    ensures fp.deviceType == DeviceTypeOf(agent)
  {
    var fp := Fingerprint(
      OrUnknown(ip),
      OrUnknown(if location.Some? then location.value.country else None),
      OrUnknown(if location.Some? then location.value.city else None),
      BrowserOf(agent),
      OrUnknown(if agent.Some? then agent.value.platform else None),
      OrUnknown(if agent.Some? then agent.value.os else None),
      OrUnknown(if agent.Some? then agent.value.device else None),
      DeviceTypeOf(agent));
    assert forall f :: Get(fp, f) != "" by {
      forall f ensures Get(fp, f) != "" {
        FieldCases(f);
      }
    }
    fp
  }

  /** Without a lookup result and a user-agent, all but the address are
      "unknown" and the device type is "unknown" too. */
  lemma NothingKnown(ip: Option<string>)
    ensures var fp := GetCurrentContextData(ip, None, None);
            && fp.country == Unknown && fp.city == Unknown && fp.browser == Unknown
            && fp.platform == Unknown && fp.os == Unknown && fp.device == Unknown
            && fp.deviceType == Unknown
  {
  }

  /** A reported browser is "name version": it always has a space, so it can
      never be confused with "unknown". */
  lemma KnownBrowserHasSpace(agent: Option<Agent>)
    requires agent.Some? && Truthy(agent.value.browser)
    ensures ' ' in BrowserOf(agent) && BrowserOf(agent) != Unknown
  {
    var b := BrowserOf(agent);
    var name := agent.value.browser.value;
    assert b[|name|] == ' ';
  }
}
