/**
 * Registration and login over the user collection. The password "hash" is the
 * base 64 text of the password's UTF-8 bytes: reversible, and modelled as such.
 */
module Auth {
  import opened Wrappers
  import opened Text
  import Utf8
  import Base64
  import opened UserSchema

  const DbNotConnected := "Database connection not established"
  const AllFieldsRequired := "All fields are required"
  const PasswordTooShort := "Password must be at least 6 characters"
  const UserExists := "User already exists with this email"
  const LoginFieldsRequired := "Email and password are required"
  const InvalidCredentials := "Invalid email or password"
  const Registered := "User registered successfully"
  const LoggedIn := "Login successful"

  /** `Buffer.from(password).toString('base64')`. */
  function HashPassword(password: string): string
  {
    Base64.Encode(Utf8.Encode(password))
  }

  /** The stored hash is compared with the hash of the offered password. */
  predicate VerifyPassword(password: string, hashed: string)
  {
    HashPassword(password) == hashed
  }

  /** A user as sent back to the client: the stored document without its password. */
  datatype PublicUser = PublicUser(id: string, email: string, name: string, createdAt: int)

  datatype StoredUser = StoredUser(id: string, doc: UserDoc)

  datatype Body =
    | ErrorBody(error: string)
    | SchemaErrorBody(paths: set<UserPath>)
    | UserBody(message: string, user: PublicUser)

  datatype Response = Response(status: nat, body: Body)

  function Public(u: StoredUser): (p: PublicUser)
    ensures p.id == u.id && p.email == u.doc.email && p.name == u.doc.name && p.createdAt == u.doc.createdAt
  {
    PublicUser(u.id, u.doc.email, u.doc.name, u.doc.createdAt)
  }

  /** The hash has `4 * ceil(n / 3)` characters for `n` UTF-8 bytes, all from the alphabet or `=`. */
  lemma HashPasswordShape(password: string)
    ensures |HashPassword(password)| == 4 * ((|Utf8.Encode(password)| + 2) / 3)
    ensures forall i :: 0 <= i < |HashPassword(password)| ==>
      Base64.InAlphabet(HashPassword(password)[i]) || HashPassword(password)[i] == Base64.Pad
  {
    Base64.EncodeLength(Utf8.Encode(password));
    Base64.EncodeAlphabet(Utf8.Encode(password));
  }

  /** The hash can be turned back into the password: it hides nothing. */
  lemma HashPasswordReversible(password: string)
    ensures var bytes := Base64.Decode(HashPassword(password));
      bytes.Some? && Utf8.Decode(bytes.value) == Some(password)
  {
    Base64.DecodeEncode(Utf8.Encode(password));
    Utf8.DecodeEncode(password);
  }

  /** A password verifies against a hash exactly when it is the password the hash was made from. */
  lemma VerifyPasswordIff(password: string, original: string)
    ensures VerifyPassword(password, HashPassword(original)) <==> password == original
  {
    if VerifyPassword(password, HashPassword(original)) {
      Base64.EncodeInjective(Utf8.Encode(password), Utf8.Encode(original));
      Utf8.EncodeInjective(password, original);
    }
  }

  /**
   * A password the route accepts (six code units or more) hashes to at least eight
   * characters, so the schema's `minlength` on the stored hash never fails.
   */
  lemma HashOfAcceptedPasswordIsLongEnough(password: string)
    requires Utf8.Utf16Length(password) >= MinPasswordLength
    ensures Utf8.Utf16Length(HashPassword(password)) >= 8
  {
    var h := HashPassword(password);
    Utf8.Utf16LengthAtMostBytes(password);
    HashPasswordShape(password);
    forall i | 0 <= i < |h| ensures h[i] as int < 0x10000 {
      assert Base64.InAlphabet(h[i]) || h[i] == Base64.Pad;
    }
    Utf8.Utf16LengthOfBmp(h);
  }

  predicate UniqueEmails(us: seq<StoredUser>)
  {
    forall i, j :: 0 <= i < j < |us| ==> us[i].doc.email != us[j].doc.email
  }

  /** Adding a user whose email nobody has keeps the emails unique. */
  lemma AppendKeepsUnique(us: seq<StoredUser>, u: StoredUser)
    requires UniqueEmails(us)
    requires forall v :: v in us ==> v.doc.email != u.doc.email
    ensures UniqueEmails(us + [u])
  {
    var vs := us + [u];
    forall i, j | 0 <= i < j < |vs| ensures vs[i].doc.email != vs[j].doc.email {
      if j == |us| {
        assert vs[i] in us;
      }
    }
  }

  /** The user collection, with its unique index on `email`. */
  class UserStore {
    var users: seq<StoredUser>

    /** No two stored users share an email. */
    predicate Valid()
      reads this
    {
      UniqueEmails(users)
    }

    constructor ()
      ensures users == [] && Valid()
    {
      users := [];
    }

    /** `User.findOne({ email })`, with the schema's setters applied to the query value. */
    function FindByEmail(email: string): (r: Option<StoredUser>)
      reads this
      ensures r.Some? ==> r.value in users && r.value.doc.email == TrimLower(email)
      ensures r.None? ==> forall u :: u in users ==> u.doc.email != TrimLower(email)
    {
      FirstWithEmail(users, TrimLower(email))
    }

    static function FirstWithEmail(us: seq<StoredUser>, email: string): (r: Option<StoredUser>)
      ensures r.Some? ==> r.value in us && r.value.doc.email == email
      ensures r.None? ==> forall u :: u in us ==> u.doc.email != email
    {
      if us == [] then None
      else if us[0].doc.email == email then Some(us[0])
      else FirstWithEmail(us[1..], email)
    }

    /**
     * `POST /register`. The checks run in order: the database connection, the three
     * fields, the password length, the lookup of the email (which fails with
     * `lookupFault` when one is given), an existing user with that email, the schema,
     * and finally the save, which fails with `saveFault` when one is given. Only a
     * request that passes them all adds a user, exactly one, holding the password's hash.
     */
    method Register(connected: bool, email: Option<string>, password: Option<string>, name: Option<string>,
                    lookupFault: Option<string>, newId: string, now: int, saveFault: Option<string>)
      returns (r: Response)
      requires Valid()
      modifies this
      ensures Valid()
      ensures r.status == 201 <==> users != old(users)
      ensures !connected ==> r == Response(500, ErrorBody(DbNotConnected))
      ensures connected && !(Present(email) && Present(password) && Present(name)) ==>
        r == Response(400, ErrorBody(AllFieldsRequired))
      ensures (connected && Present(email) && Present(password) && Present(name)
               && Utf8.Utf16Length(password.value) < MinPasswordLength) ==>
        r == Response(400, ErrorBody(PasswordTooShort))
      ensures (connected && Present(email) && Present(password) && Present(name)
               && Utf8.Utf16Length(password.value) >= MinPasswordLength && lookupFault.Some?) ==>
        r == Response(500, ErrorBody(lookupFault.value))
      ensures (connected && Present(email) && Present(password) && Present(name)
               && Utf8.Utf16Length(password.value) >= MinPasswordLength && lookupFault.None?
               && old(FindByEmail(email.value)).Some?) ==>
        r == Response(400, ErrorBody(UserExists))
      ensures (connected && Present(email) && Present(password) && Present(name)
               && Utf8.Utf16Length(password.value) >= MinPasswordLength && lookupFault.None?
               && old(FindByEmail(email.value)).None?) ==>
        var checked := Validate(RawUser(email, Some(HashPassword(password.value)), name, None), now);
        r == if checked.Err? then Response(500, SchemaErrorBody(checked.error))
             else if saveFault.Some? then Response(500, ErrorBody(saveFault.value))
             else Response(201, UserBody(Registered, Public(StoredUser(newId, checked.value))))
      ensures r.status == 500 && connected ==> users == old(users)
      ensures r.status == 201 ==>
        && connected && Present(email) && Present(password) && Present(name) && saveFault.None?
        && var doc := UserDoc(TrimLower(email.value), HashPassword(password.value), Trim(name.value), now);
           && users == old(users) + [StoredUser(newId, doc)]
           && r == Response(201, UserBody(Registered, Public(StoredUser(newId, doc))))
    {
      if !connected {
        return Response(500, ErrorBody(DbNotConnected));
      }
      if !(Present(email) && Present(password) && Present(name)) {
        return Response(400, ErrorBody(AllFieldsRequired));
      }
      if Utf8.Utf16Length(password.value) < MinPasswordLength {
        return Response(400, ErrorBody(PasswordTooShort));
      }
      if lookupFault.Some? {
        return Response(500, ErrorBody(lookupFault.value));
      }
      if FindByEmail(email.value).Some? {
        return Response(400, ErrorBody(UserExists));
      }
      var hashed := HashPassword(password.value);
      var checked := Validate(RawUser(email, Some(hashed), name, None), now);
      if checked.Err? {
        return Response(500, SchemaErrorBody(checked.error));
      }
      if saveFault.Some? {
        return Response(500, ErrorBody(saveFault.value));
      }
      ValidateStores(RawUser(email, Some(hashed), name, None), now);
      var u := StoredUser(newId, checked.value);
      assert u.doc == UserDoc(TrimLower(email.value), hashed, Trim(name.value), now);
      AppendKeepsUnique(users, u);
      users := users + [u];
      r := Response(201, UserBody(Registered, Public(u)));
    }

    /**
     * `POST /login`, read-only: the connection, then both fields, then the lookup (which
     * fails with `lookupFault` when one is given) and the password; an unknown email and
     * a wrong password get the same answer.
     */
    method Login(connected: bool, email: Option<string>, password: Option<string>, lookupFault: Option<string>)
      returns (r: Response)
      ensures !connected ==> r == Response(500, ErrorBody(DbNotConnected))
      ensures connected && !(Present(email) && Present(password)) ==> r == Response(400, ErrorBody(LoginFieldsRequired))
      ensures connected && Present(email) && Present(password) && lookupFault.Some? ==>
        r == Response(500, ErrorBody(lookupFault.value))
      ensures connected && Present(email) && Present(password) && lookupFault.None? && FindByEmail(email.value).None? ==>
        r == Response(401, ErrorBody(InvalidCredentials))
      ensures connected && Present(email) && Present(password) && lookupFault.None? && FindByEmail(email.value).Some? ==>
        var u := FindByEmail(email.value).value;
        r == if VerifyPassword(password.value, u.doc.password)
             then Response(200, UserBody(LoggedIn, Public(u)))
             else Response(401, ErrorBody(InvalidCredentials))
      ensures r.status == 401 ==> r == Response(401, ErrorBody(InvalidCredentials))
    {
      if !connected {
        return Response(500, ErrorBody(DbNotConnected));
      }
      if !(Present(email) && Present(password)) {
        return Response(400, ErrorBody(LoginFieldsRequired));
      }
      if lookupFault.Some? {
        return Response(500, ErrorBody(lookupFault.value));
      }
      var found := FindByEmail(email.value);
      if found.None? {
        return Response(401, ErrorBody(InvalidCredentials));
      }
      if !VerifyPassword(password.value, found.value.doc.password) {
        return Response(401, ErrorBody(InvalidCredentials));
      }
      r := Response(200, UserBody(LoggedIn, Public(found.value)));
    }
  }

  /**
   * Once the route's own checks pass, the schema rejects the new user exactly when
   * the email or the name is white space only, which the route's check lets through.
   */
  lemma RegisterSchemaRejectsOnlyBlank(email: string, password: string, name: string, now: int)
    requires email != "" && password != "" && name != ""
    requires Utf8.Utf16Length(password) >= MinPasswordLength
    ensures Validate(RawUser(Some(email), Some(HashPassword(password)), Some(name), None), now).Err? <==>
      TrimLower(email) == "" || Trim(name) == ""
  {
    HashOfAcceptedPasswordIsLongEnough(password);
    ValidateAcceptsIff(RawUser(Some(email), Some(HashPassword(password)), Some(name), None), now);
  }
}
