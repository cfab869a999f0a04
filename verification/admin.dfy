/** The Admin document (server/models/admin.model.ts): the `trim` setters, the
    validators of username and password in the order Mongoose runs them
    (required, minlength, maxlength, then the custom validator), and the
    pre-save hook that hashes the password only when it was modified. The
    hash itself (bcrypt) is a parameter. */
module AdminAccounts {
  import opened Wrappers
  import opened Strings

  const UsernameMinLength: nat := 3
  const UsernameMaxLength: nat := 20
  const PasswordMinLength: nat := 6

  datatype Admin = Admin(username: string, password: string)

  /** The first validator of a path that rejects its value. */
  datatype FieldError = Required | TooShort | TooLong | Invalid

  /** One character of the class `[a-zA-Z0-9]`. */
  predicate IsAlphanumeric(c: char) {
    ('a' <= c <= 'z') || ('A' <= c <= 'Z') || ('0' <= c <= '9')
  }

  /** What `/^[a-zA-Z0-9]+$/` accepts: a non-empty run of alphanumerics. */
  predicate UsernamePattern(value: string) {
    |value| > 0 && forall i :: 0 <= i < |value| ==> IsAlphanumeric(value[i])
  }

  /** The custom username validator, as a matcher scanning the value once. */
  method MatchUsernamePattern(value: string) returns (ok: bool)
    ensures ok <==> UsernamePattern(value)
  {
    if |value| == 0 {
      return false;
    }
    var i := 0;
    while i < |value|
      invariant 0 <= i <= |value|
      invariant forall k :: 0 <= k < i ==> IsAlphanumeric(value[k])
    {
      if !IsAlphanumeric(value[i]) {
        return false;
      }
      i := i + 1;
    }
    return true;
  }

  /** Lines 11-26: the username is trimmed, then checked for presence, for
      a length of 3 to 20 UTF-16 units and against the pattern. */
  function UsernameError(raw: string): (e: Option<FieldError>)
    ensures e == Some(Required) <==> Trim(raw) == ""
    ensures e.None? <==>
              && UsernameMinLength <= |Trim(raw)| <= UsernameMaxLength
              && UsernamePattern(Trim(raw))
  {
    CheckUsername(Trim(raw))
  }

  /** The username validators applied to an already-trimmed value. */
  function CheckUsername(value: string): Option<FieldError> {
    if value == "" then Some(Required)
    else if Utf16Length(value) < UsernameMinLength then Some(TooShort)
    else if Utf16Length(value) > UsernameMaxLength then Some(TooLong)
    else if !UsernamePattern(value) then Some(Invalid)
    else None
  }

  /** The username path as Mongoose validates it, step by step: the setter
      trims, then `required`, `minlength` and `maxlength` (on UTF-16 units)
      and the custom validator, run as the scan above. The first rejection is
      the one reported; it is the error the reference definition gives. */
  method ValidateUsername(raw: string) returns (e: Option<FieldError>)
    ensures e == UsernameError(raw)
  {
    var value := Trim(raw);
    if value == "" {
      return Some(Required);
    }
    var length := Utf16Length(value);
    if length < UsernameMinLength {
      return Some(TooShort);
    }
    if length > UsernameMaxLength {
      return Some(TooLong);
    }
    var ok := MatchUsernamePattern(value);
    if !ok {
      return Some(Invalid);
    }
    return None;
  }

  /** Lines 28-40: the password is trimmed, then checked for presence and for
      a length of at least 6 UTF-16 units. */
  function PasswordError(raw: string): (e: Option<FieldError>)
    ensures e == Some(Required) <==> Trim(raw) == ""
    ensures e.None? <==> Utf16Length(Trim(raw)) >= PasswordMinLength
    ensures e.Some? ==> e.value == Required || e.value == Invalid
  {
    CheckPassword(Trim(raw))
  }

  /** The password validators applied to an already-trimmed value. */
  function CheckPassword(value: string): Option<FieldError> {
    if value == "" then Some(Required)
    else if Utf16Length(value) < PasswordMinLength then Some(Invalid)
    else None
  }

  /** Lines 47-59: the pre-save hook. `hash` is bcrypt, None when it fails;
      the save fails with it. */
  function PreSave(a: Admin, passwordModified: bool, hash: string -> Option<string>): (r: Option<Admin>)
    ensures r.Some? ==> r.value.username == a.username
    ensures !passwordModified ==> r == Some(a)
    ensures passwordModified ==> (r.Some? <==> hash(a.password).Some?)
    ensures passwordModified && r.Some? ==> r.value.password == hash(a.password).value
  {
    if !passwordModified then Some(a)
    else
      match hash(a.password)
      case None => None
      case Some(h) => Some(a.(password := h))
  }

  /** The outcome of saving a new Admin document. */
  datatype Creation =
    | Created(admin: Admin)
    | ValidationFailed(usernameError: Option<FieldError>, passwordError: Option<FieldError>)
    | HookFailed

  /** `new Admin({username, password}).save()`: the setters trim, validation
      runs on the trimmed values, then the hook hashes the (new, hence
      modified) password. */
  function CreateAdmin(username: string, password: string, hash: string -> Option<string>): (c: Creation)
    ensures c.Created? <==>
              && UsernameError(username).None? && PasswordError(password).None?
              && hash(Trim(password)).Some?
    ensures c.Created? ==> c.admin == Admin(Trim(username), hash(Trim(password)).value)
    ensures c.ValidationFailed? ==> c.usernameError.Some? || c.passwordError.Some?
    ensures c.ValidationFailed? <==> UsernameError(username).Some? || PasswordError(password).Some?
    ensures c.ValidationFailed? ==>
              c.usernameError == UsernameError(username) && c.passwordError == PasswordError(password)
  {
    var a := Admin(Trim(username), Trim(password));
    var ue := UsernameError(username);
    var pe := PasswordError(password);
    if ue.Some? || pe.Some? then ValidationFailed(ue, pe)
    else
      match PreSave(a, true, hash)
      case None => HookFailed
      case Some(saved) => Created(saved)
  }

  /** Surrounding whitespace never decides validity: a username and its
      trimmed form are judged alike. */
  lemma UsernameIgnoresSurroundingWhitespace(username: string)
    ensures UsernameError(Trim(username)) == UsernameError(username)
  {
    TrimIdempotent(username);
  }

  /** The same for the password. */
  lemma PasswordIgnoresSurroundingWhitespace(password: string)
    ensures PasswordError(Trim(password)) == PasswordError(password)
  {
    TrimIdempotent(password);
  }
}
