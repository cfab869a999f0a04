/** The links the server mails out: the approve and block links of a new
    login (server/middlewares/users/verifyLogin.ts) and the e-mail
    verification link (server/middlewares/users/verifyEmail.ts), together
    with the readers that take the values back out of them. Values are
    interpolated raw, without URL encoding. */
module Links {
  import opened Wrappers
  import opened ObjectIds

  const LoginPath := "/auth/verify/login"
  const BlockPath := "/auth/verify/block"
  const EmailPath := "/auth/verify"

  /** `${id}` of the snapshot id: its hex text, or "undefined" when the
      snapshot has none. */
  function IdParam(id: Option<ObjectId>): (s: string)
    ensures id.Some? ==> s == IdText(id.value)
    ensures id.None? ==> s == "undefined"
  {
    if id.Some? then IdText(id.value) else "undefined"
  }

  /** `${CLIENT_URL}<path>?id=${id}&email=${email}` */
  function IdLink(base: string, path: string, id: Option<ObjectId>, email: string): string {
    base + path + "?id=" + IdParam(id) + "&email=" + email
  }

  function LoginLink(base: string, id: Option<ObjectId>, email: string): string {
    IdLink(base, LoginPath, id, email)
  }

  function BlockLink(base: string, id: Option<ObjectId>, email: string): string {
    IdLink(base, BlockPath, id, email)
  }

  /** Reads the id and the e-mail back out of a link to `prefix`: the text
      after "?id=" must be a castable 24-digit id, followed by "&email=" and
      the address. */
  function ParseIdLink(prefix: string, link: string): (r: Option<(ObjectId, string)>)
    ensures r.Some? ==>
              && |link| >= |prefix| + 4 + IdDigits + 7
              && link[..|prefix| + 4] == prefix + "?id="
              && CastId(link[|prefix| + 4..|prefix| + 4 + IdDigits]) == Some(r.value.0)
              && link[|prefix| + 4 + IdDigits..] == "&email=" + r.value.1
  {
    var head := prefix + "?id=";
    var n := |head|;
    if |link| < n + IdDigits + 7 || link[..n] != head then None
    else
      match CastId(link[n..n + IdDigits])
      case None => None
      case Some(id) =>
        if link[n + IdDigits..n + IdDigits + 7] != "&email=" then None
        else
          var email := link[n + IdDigits + 7..];
          assert link[n + IdDigits..] == "&email=" + email;
          Some((id, email))
  }

  /** A link built with an id reads back as that id and that address. */
  lemma IdLinkRoundTrip(base: string, path: string, id: ObjectId, email: string)
    ensures ParseIdLink(base + path, IdLink(base, path, Some(id), email)) == Some((id, email))
  {
    var link := IdLink(base, path, Some(id), email);
    var n := |base + path + "?id="|;
    assert link[..n] == base + path + "?id=";
    assert link[n..n + IdDigits] == IdText(id);
    CastIdText(id);
    assert link[n + IdDigits..n + IdDigits + 7] == "&email=";
    assert link[n + IdDigits + 7..] == email;
  }

  /** A link built without an id ("undefined") never reads back: 'u' is not
      a hex digit. */
  lemma UndefinedIdLinkUnreadable(base: string, path: string, email: string)
    ensures ParseIdLink(base + path, IdLink(base, path, None, email)) == None
  {
    var link := IdLink(base, path, None, email);
    var n := |base + path + "?id="|;
    if |link| >= n + IdDigits + 7 {
      assert link[n] == 'u';
      assert link[n..n + IdDigits][0] == 'u';
    }
  }

  /** The approve and the block link are different links that carry the same
      id and the same address. */
  lemma ApproveAndBlockCarrySameQuery(base: string, id: ObjectId, email: string)
    ensures LoginLink(base, Some(id), email) != BlockLink(base, Some(id), email)
    ensures ParseIdLink(base + LoginPath, LoginLink(base, Some(id), email)) == Some((id, email))
    ensures ParseIdLink(base + BlockPath, BlockLink(base, Some(id), email)) == Some((id, email))
  {
    IdLinkRoundTrip(base, LoginPath, id, email);
    IdLinkRoundTrip(base, BlockPath, id, email);
    var k := |base| + 13;
    assert LoginLink(base, Some(id), email)[k] == 'l';
    assert BlockLink(base, Some(id), email)[k] == 'b';
  }

  /** `${CLIENT_URL}/auth/verify?code=${code}&email=${email}` */
  function EmailLink(base: string, code: string, email: string): string {
    base + EmailPath + "?code=" + code + "&email=" + email
  }

  /** The position of the first `c` in `s`. */
  function IndexOf(s: string, c: char): (r: Option<nat>)
    ensures r.Some? ==> r.value < |s| && s[r.value] == c && c !in s[..r.value]
    ensures r.None? <==> c !in s
  {
    if |s| == 0 then None
    else if s[0] == c then Some(0)
    else
      match IndexOf(s[1..], c)
      case None => None
      case Some(i) =>
        assert s[..i + 1] == [s[0]] + s[1..][..i];
        Some(i + 1)
  }

  /** Reads the code and the address back out of a verification link: the
      code runs to the first '&', which must start "&email=". */
  function ParseEmailLink(base: string, link: string): (r: Option<(string, string)>)
    ensures r.Some? ==> link == EmailLink(base, r.value.0, r.value.1) && '&' !in r.value.0
  {
    var head := base + EmailPath + "?code=";
    var n := |head|;
    if |link| < n || link[..n] != head then None
    else
      var rest := link[n..];
      match IndexOf(rest, '&')
      case None => None
      case Some(k) =>
        if |rest| < k + 7 || rest[k..k + 7] != "&email=" then None
        else
          var code := rest[..k];
          var email := rest[k + 7..];
          EmailLinkShape(base, link, head, rest, code, email);
          Some((code, email))
  }

  lemma EmailLinkShape(base: string, link: string, head: string, rest: string, code: string, email: string)
    requires head == base + EmailPath + "?code="
    requires |head| <= |link| && link[..|head|] == head && rest == link[|head|..]
    requires |code| + 7 <= |rest| && code == rest[..|code|]
    requires rest[|code|..|code| + 7] == "&email=" && email == rest[|code| + 7..]
    ensures link == EmailLink(base, code, email)
  {
    assert rest == code + "&email=" + email;
    assert link == head + rest;
  }

  /** A verification link reads back as its code and address when the code
      has no '&' (a decimal code never has one). */
  lemma EmailLinkRoundTrip(base: string, code: string, email: string)
    requires '&' !in code
    ensures ParseEmailLink(base, EmailLink(base, code, email)) == Some((code, email))
  {
    var head := base + EmailPath + "?code=";
    var link := EmailLink(base, code, email);
    assert link[..|head|] == head;
    var rest := link[|head|..];
    assert rest == code + "&email=" + email;
    assert rest[..|code|] == code;
    assert rest[|code|] == '&';
    assert rest[|code|..|code| + 7] == "&email=";
  }
}
