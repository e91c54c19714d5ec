/**
 * The user document schema: email (required, trimmed, lowercased, unique),
 * password (required, at least six characters), name (required, trimmed) and
 * the creation time, which defaults to the moment of creation. Uniqueness is
 * an invariant of the user store (module Auth), not of one document.
 */
module UserSchema {
  import opened Wrappers
  import opened Text
  import Utf8

  datatype RawUser = RawUser(email: Option<string>, password: Option<string>, name: Option<string>, createdAt: Option<int>)

  /** A stored user; `createdAt` is a time stamp in milliseconds. */
  datatype UserDoc = UserDoc(email: string, password: string, name: string, createdAt: int)

  datatype UserPath = EmailPath | PasswordPath | NamePath

  const MinPasswordLength := 6

  /** The setters and the default: email lowercased and trimmed, name trimmed, `createdAt` `now` when absent. */
  function Normalize(raw: RawUser, now: int): (d: RawUser)
    ensures d.createdAt.Some?
  {
    RawUser(
      if raw.email.Some? then Some(TrimLower(raw.email.value)) else None,
      raw.password,
      if raw.name.Some? then Some(Trim(raw.name.value)) else None,
      Some(OrDefault(raw.createdAt, now)))
  }

  /** `minlength: 6` counts UTF-16 code units, as JavaScript's `length` does. */
  function Errors(d: RawUser): set<UserPath>
  {
    (if Present(d.email) then {} else {EmailPath})
    + (if Present(d.password) && Utf8.Utf16Length(d.password.value) >= MinPasswordLength then {} else {PasswordPath})
    + (if Present(d.name) then {} else {NamePath})
  }

  /** Creating a user document: normalise, then validate. */
  function Validate(raw: RawUser, now: int): Result<UserDoc, set<UserPath>>
  {
    var d := Normalize(raw, now);
    if Errors(d) == {} then Ok(UserDoc(d.email.value, d.password.value, d.name.value, d.createdAt.value))
    else Err(Errors(d))
  }

  /**
   * A user document is accepted exactly when the normalised email and name are
   * not empty and the password has at least six code units.
   */
  lemma ValidateAcceptsIff(raw: RawUser, now: int)
    ensures Validate(raw, now).Ok? <==>
      && raw.email.Some? && TrimLower(raw.email.value) != ""
      && raw.password.Some? && Utf8.Utf16Length(raw.password.value) >= MinPasswordLength
      && raw.name.Some? && Trim(raw.name.value) != ""
  {
  }

  /** What an accepted document stores. */
  lemma ValidateStores(raw: RawUser, now: int)
    requires Validate(raw, now).Ok?
    ensures var u := Validate(raw, now).value;
      && u.email == TrimLower(raw.email.value)
      && u.password == raw.password.value
      && u.name == Trim(raw.name.value)
      && u.createdAt == OrDefault(raw.createdAt, now)
      && TrimLower(u.email) == u.email
      && Trim(u.name) == u.name
  {
    TrimLowerCanonical(raw.email.value);
    TrimIdempotent(raw.name.value);
  }

  /** Normalising twice, at any two times, is normalising once at the first. */
  lemma NormalizeIdempotent(raw: RawUser, now: int, later: int)
    ensures Normalize(Normalize(raw, now), later) == Normalize(raw, now)
  {
    if raw.email.Some? { TrimLowerCanonical(raw.email.value); }
    if raw.name.Some? { TrimIdempotent(raw.name.value); }
  }

  /** The creation time defaults to `now` only when none was supplied. */
  lemma CreatedAtDefault(raw: RawUser, now: int)
    ensures raw.createdAt.None? ==> Normalize(raw, now).createdAt == Some(now)
    ensures raw.createdAt.Some? ==> Normalize(raw, now).createdAt == raw.createdAt
  {
  }
}
