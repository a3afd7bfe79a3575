/** The auth service: registration and login as check cascades over the user
    store, returning a success-or-error result that carries only the public
    projection of a user. */
module Auth {
  import opened Common
  import opened Storage

  /** What `validatePassword` reports. */
  datatype Validation = Validation(valid: bool, errors: seq<string>)

  /** The password module, whose code is not part of this model: `hash` is
      hashPassword, `compare(password, hash)` is comparePassword and `validate`
      is validatePassword. Nothing is assumed about them except where a lemma
      says so in its `requires`. */
  datatype PasswordCodec = PasswordCodec(hash: string -> string,
                                         compare: (string, string) -> bool,
                                         validate: string -> Validation)

  /** The user fields an `AuthResult` may carry. It has no place for a hash. */
  datatype PublicUser = PublicUser(id: UserId, email: string, name: string)

  /** `AuthResult`: `{success: true, user}` or `{success: false, error}`. */
  datatype AuthResult = Authenticated(user: PublicUser) | Rejected(error: string)

  const InvalidCredentials := "Invalid email or password"
  const EmailTaken := "Email already registered"
  const ErrorSeparator := "; "

  function Project(u: User): PublicUser
  {
    PublicUser(u.id, u.email, u.name)
  }

  /** No two stored users share an email under lower-casing. */
  ghost predicate EmailsUnique(users: seq<User>)
  {
    forall i, j :: 0 <= i < j < |users| ==> !SameEmail(users[i].email, users[j].email)
  }

  /** `loginUser` over a store holding `users` in insertion order. */
  function Login(users: seq<User>, codec: PasswordCodec, email: string, password: string): (r: AuthResult)
    ensures r.Rejected? ==> r.error == InvalidCredentials
    ensures r.Authenticated? <==>
              exists k :: 0 <= k < |users| && SameEmail(users[k].email, email)
                && (forall j :: 0 <= j < k ==> !SameEmail(users[j].email, email))
                && codec.compare(password, users[k].passwordHash)
                && r == Authenticated(Project(users[k]))
  {
    match FindByEmail(users, email)
    case None => Rejected(InvalidCredentials)
    case Some(user) =>
      if !codec.compare(password, user.passwordHash) then Rejected(InvalidCredentials)
      else Authenticated(Project(user))
  }

  /** `registerUser` over a store holding `users`: the result and the store's
      records afterwards. `id` and `now` are what randomUUID and the clock give. */
  function Register(users: seq<User>, codec: PasswordCodec, name: string, email: string,
                    password: string, id: UserId, now: int): (out: (AuthResult, seq<User>))
    ensures |users| <= |out.1| <= |users| + 1 && out.1[..|users|] == users
    ensures out.0.Rejected? <==> |out.1| == |users|
    ensures out.0.Rejected? ==>
              || (!codec.validate(password).valid
                  && out.0.error == Join(codec.validate(password).errors, ErrorSeparator))
              || (codec.validate(password).valid && FindByEmail(users, email).Some? && out.0.error == EmailTaken)
    ensures out.0.Authenticated? ==>
              var u := out.1[|users|];
              && u.id == id && u.email == email && u.passwordHash == codec.hash(password) && !u.hasPaid
              && out.0.user == Project(u)
  {
    var validation := codec.validate(password);
    if !validation.valid then (Rejected(Join(validation.errors, ErrorSeparator)), users)
    else if FindByEmail(users, email).Some? then (Rejected(EmailTaken), users)
    else
      var user := User(id, name, email, codec.hash(password), false, now);
      (Authenticated(Project(user)), users + [user])
  }

  /** A weak password is reported with every violated rule, whatever the store
      holds (an already registered email included), and the store is untouched. */
  lemma RegisterValidatesFirst(users: seq<User>, codec: PasswordCodec, name: string, email: string,
                               password: string, id: UserId, now: int)
    requires !codec.validate(password).valid
    ensures Register(users, codec, name, email, password, id, now)
              == (Rejected(Join(codec.validate(password).errors, ErrorSeparator)), users)
    ensures forall i :: 0 <= i < |codec.validate(password).errors| ==>
              IsInfix(codec.validate(password).errors[i],
                      Register(users, codec, name, email, password, id, now).0.error)
  {
    forall i | 0 <= i < |codec.validate(password).errors|
      ensures IsInfix(codec.validate(password).errors[i],
                      Join(codec.validate(password).errors, ErrorSeparator))
    {
      JoinContainsEach(codec.validate(password).errors, ErrorSeparator, i);
    }
  }

  /** With a valid password and an email some stored user already has (in any
      letter case), registration fails with "Email already registered". */
  lemma RegisterRejectsTakenEmail(users: seq<User>, codec: PasswordCodec, name: string, email: string,
                                  password: string, id: UserId, now: int, k: nat)
    requires codec.validate(password).valid
    requires k < |users| && SameEmail(users[k].email, email)
    ensures Register(users, codec, name, email, password, id, now) == (Rejected(EmailTaken), users)
  {
  }

  /** A failed registration leaves the store as it was; a successful one appends
      exactly one user, holding the hash of the password and unpaid, and returns
      its public projection. */
  lemma RegisterOutcome(users: seq<User>, codec: PasswordCodec, name: string, email: string,
                        password: string, id: UserId, now: int)
    ensures var (r, after) := Register(users, codec, name, email, password, id, now);
            && (r.Rejected? ==> after == users)
            && (r.Authenticated? <==> codec.validate(password).valid && FindByEmail(users, email).None?)
            && (r.Authenticated? ==>
                  after == users + [User(id, name, email, codec.hash(password), false, now)]
                  && r.user == PublicUser(id, email, name))
  {
  }

  /** Registering the same email again, in any letter case, fails. */
  lemma {:induction false} RegisterTwiceRejected(users: seq<User>, codec: PasswordCodec,
                                                 name: string, email: string, password: string,
                                                 id: UserId, now: int,
                                                 name2: string, email2: string, password2: string,
                                                 id2: UserId, now2: int)
    requires Register(users, codec, name, email, password, id, now).0.Authenticated?
    requires SameEmail(email, email2)
    requires codec.validate(password2).valid
    ensures var after := Register(users, codec, name, email, password, id, now).1;
            Register(after, codec, name2, email2, password2, id2, now2) == (Rejected(EmailTaken), after)
  {
    var user := User(id, name, email, codec.hash(password), false, now);
    FindByEmailAppend(users, user, email2);
  }

  /** Registration keeps emails unique across the store. */
  lemma RegisterKeepsEmailsUnique(users: seq<User>, codec: PasswordCodec,
                                  name: string, email: string, password: string,
                                  id: UserId, now: int)
    requires EmailsUnique(users)
    ensures EmailsUnique(Register(users, codec, name, email, password, id, now).1)
  {
  }

  /** The two ways a login fails (unknown email, wrong password) give the same
      result, so a failure does not tell whether the email is registered. */
  lemma LoginFailuresIndistinguishable(users1: seq<User>, codec1: PasswordCodec, email1: string, password1: string,
                                       users2: seq<User>, codec2: PasswordCodec, email2: string, password2: string)
    requires Login(users1, codec1, email1, password1).Rejected?
    requires Login(users2, codec2, email2, password2).Rejected?
    ensures Login(users1, codec1, email1, password1) == Login(users2, codec2, email2, password2)
  {
  }

  /** Round trip: after a successful registration, logging in with the same
      email and password succeeds as the new user, provided the password module
      accepts a password against its own hash. */
  lemma {:induction false} RegisterThenLogin(users: seq<User>, codec: PasswordCodec, name: string, email: string,
                                             password: string, id: UserId, now: int)
    requires Register(users, codec, name, email, password, id, now).0.Authenticated?
    requires codec.compare(password, codec.hash(password))
    ensures Login(Register(users, codec, name, email, password, id, now).1, codec, email, password)
              == Authenticated(PublicUser(id, email, name))
  {
    var user := User(id, name, email, codec.hash(password), false, now);
    FindByEmailAppend(users, user, email);
  }

  /** `registerUser(storage, name, email, password)`: validation, then the
      duplicate check, then the hash and the insertion. */
  method RegisterUser(storage: MemStorage, codec: PasswordCodec, name: string, email: string,
                      password: string, id: UserId, now: int) returns (r: AuthResult)
    requires storage.Valid()
    requires id !in storage.users
    modifies storage
    ensures storage.Valid()
    ensures (r, storage.Values()) == Register(old(storage.Values()), codec, name, email, password, id, now)
    ensures r.Rejected? ==> storage.users == old(storage.users) && storage.order == old(storage.order)
    ensures r.Authenticated? ==>
              storage.users == old(storage.users)[id := User(id, name, email, codec.hash(password), false, now)]
              && storage.order == old(storage.order) + [id]
  {
    var validation := codec.validate(password);
    if !validation.valid {
      return Rejected(Join(validation.errors, ErrorSeparator));
    }
    var existing := storage.GetUserByEmail(email);
    if existing.Some? {
      return Rejected(EmailTaken);
    }
    var hashed := codec.hash(password);
    var user := storage.CreateUser(InsertUser(name, email, hashed), id, now);
    r := Authenticated(PublicUser(user.id, user.email, user.name));
  }

  /** `loginUser(storage, email, password)`: reads the store and never changes it. */
  method LoginUser(storage: MemStorage, codec: PasswordCodec, email: string, password: string)
    returns (r: AuthResult)
    requires storage.Valid()
    ensures r == Login(storage.Values(), codec, email, password)
  {
    var user := storage.GetUserByEmail(email);
    if user.None? {
      return Rejected(InvalidCredentials);
    }
    var passwordMatch := codec.compare(password, user.value.passwordHash);
    if !passwordMatch {
      return Rejected(InvalidCredentials);
    }
    r := Authenticated(PublicUser(user.value.id, user.value.email, user.value.name));
  }
}
