/**
 * The account operations of the API serializers: the declared field rules,
 * partial profile update, registration and the login decision.
 */
module Serializers {
  import opened Wrappers
  import opened Values
  import opened Models

  // ---------------------------------------------------------------------
  // Declared field lengths
  // ---------------------------------------------------------------------

  /** The `min_length` and `max_length` a CharField declares (0 when it declares no minimum). */
  datatype LengthBounds = LengthBounds(min: nat, max: nat)

  /** `UserSerializer.password`. */
  const ProfilePasswordBounds := LengthBounds(8, 128)
  /** `RegistrationSerializer.password`. */
  const RegistrationPasswordBounds := LengthBounds(8, 128)
  /** `LoginSerializer.password`: a maximum only. */
  const LoginPasswordBounds := LengthBounds(0, 128)
  /** `LoginSerializer.phone_number`. */
  const LoginPhoneBounds := LengthBounds(0, 11)
  /** The `max_length` of the `username` column, which the model serializers copy. */
  const UsernameMaxLength := 255

  predicate WithinBounds(s: string, b: LengthBounds)
  {
    b.min <= |s| <= b.max
  }

  /** Every CharField refuses text holding a NUL character. */
  predicate HasNul(s: string)
  {
    '\0' in s
  }

  // ---------------------------------------------------------------------
  // UserSerializer.update
  // ---------------------------------------------------------------------

  /** The keys `UserSerializer` can validate: its writable fields. */
  datatype Field = PhoneNumberField | UsernameField | PasswordField

  /**
   * The fields of a partial profile update that fail their declared rules:
   * a phone number that is None or fails the column's validators, a username
   * over the column's length, a password that is None or outside 8 to 128
   * characters, and any text holding a NUL character. Only the supplied
   * fields are checked.
   */
  function ProfileFieldErrors(data: map<Field, Option<string>>): (fields: set<string>)
    ensures fields <= {"phone_number", "username", "password"}
    ensures "phone_number" in fields <==>
      PhoneNumberField in data && (data[PhoneNumberField].None? || !ValidPhone(data[PhoneNumberField].value)
                                   || '\0' in data[PhoneNumberField].value)
    ensures "username" in fields <==>
      UsernameField in data && data[UsernameField].Some?
      && (|data[UsernameField].value| > UsernameMaxLength || '\0' in data[UsernameField].value)
    ensures "password" in fields <==>
      PasswordField in data && (data[PasswordField].None? || !(8 <= |data[PasswordField].value| <= 128)
                                || '\0' in data[PasswordField].value)
  {
    (if PhoneNumberField in data && (data[PhoneNumberField].None? || !ValidPhone(data[PhoneNumberField].value)
                                     || HasNul(data[PhoneNumberField].value))
     then {"phone_number"} else {})
    + (if UsernameField in data && data[UsernameField].Some?
          && (|data[UsernameField].value| > UsernameMaxLength || HasNul(data[UsernameField].value))
       then {"username"} else {})
    + (if PasswordField in data && (data[PasswordField].None?
          || !WithinBounds(data[PasswordField].value, ProfilePasswordBounds) || HasNul(data[PasswordField].value))
       then {"password"} else {})
  }

  /** `setattr(instance, key, value)` for a key other than `password`. */
  function SetAttr(u: User, key: Field, value: Option<string>): User
    requires key != PasswordField
  {
    match key
    case PhoneNumberField => u.(phoneNumber := value)
    case UsernameField => u.(username := value)
  }

  /** The record once every entry of `data`, none of them `password`, has been set on it. */
  function Assigned(u: User, data: map<Field, Option<string>>): User
    requires PasswordField !in data
  {
    u.(phoneNumber := if PhoneNumberField in data then data[PhoneNumberField] else u.phoneNumber,
       username := if UsernameField in data then data[UsernameField] else u.username)
  }

  /**
   * The record `update` saves: `password` is taken out of the data, every
   * other entry is assigned as it is, and a password that is not None is
   * stored through the hasher with this call's salt.
   */
  function Updated(u: User, data: map<Field, Option<string>>, hasher: (Option<string>, Salt) -> string,
                   salt: Salt): User
  {
    var password := if PasswordField in data then data[PasswordField] else None;
    var fields := Assigned(u, data - {PasswordField});
    if password.Some? then fields.(passwordHash := hasher(password, salt)) else fields
  }

  /**
   * `UserSerializer.update(instance, validated_data)` on the stored record
   * `id`, for data that passed the serializer's field rules: pops the
   * password, assigns the remaining entries one by one, hashes a supplied
   * password, saves, and returns the same record. It does no uniqueness or
   * phone-format check of its own.
   */
  method Update(manager: UserManager, id: Id, validatedData: map<Field, Option<string>>, salt: Salt)
    returns (instance: User)
    requires manager.Valid() && id in manager.users
    requires ProfileFieldErrors(validatedData) == {}
    modifies manager
    ensures manager.Valid()
    ensures instance.id == id
    ensures instance == Updated(old(manager.users[id]), validatedData, manager.hasher, salt)
    ensures manager.users == old(manager.users)[id := instance]
  {
    var data := validatedData;
    var password := if PasswordField in data then data[PasswordField] else None;
    data := data - {PasswordField};
    var original := manager.users[id];
    instance := original;
    var remaining := data.Keys;
    while remaining != {}
      invariant remaining <= data.Keys
      invariant instance == Assigned(original, map k | k in data && k !in remaining :: data[k])
      decreases remaining
    {
      var key :| key in remaining;
      instance := SetAttr(instance, key, data[key]);
      remaining := remaining - {key};
    }
    assert (map k | k in data && k !in remaining :: data[k]) == data;
    if password.Some? {
      instance := instance.(passwordHash := manager.hasher(password, salt));
    }
    manager.Save(instance);
  }

  /** Every non-password entry of the data is assigned, whatever its value and format. */
  lemma UpdateAssignsSupplied(u: User, data: map<Field, Option<string>>,
                              hasher: (Option<string>, Salt) -> string, salt: Salt)
    ensures PhoneNumberField in data ==> Updated(u, data, hasher, salt).phoneNumber == data[PhoneNumberField]
    ensures UsernameField in data ==> Updated(u, data, hasher, salt).username == data[UsernameField]
  {
  }

  /** Fields the data does not name keep their values, and so do id, names and flags. */
  lemma UpdateKeepsTheRest(u: User, data: map<Field, Option<string>>,
                           hasher: (Option<string>, Salt) -> string, salt: Salt)
    ensures var v := Updated(u, data, hasher, salt);
      && (PhoneNumberField !in data ==> v.phoneNumber == u.phoneNumber)
      && (UsernameField !in data ==> v.username == u.username)
      && v.id == u.id && v.firstName == u.firstName && v.lastName == u.lastName
      && v.isActive == u.isActive && v.isStaff == u.isStaff && v.isSuperuser == u.isSuperuser
  {
  }

  /**
   * The plaintext is never stored: a supplied password leaves its salted
   * hash in the password column, and without one the stored hash is kept.
   */
  lemma UpdatePasswordHashed(u: User, data: map<Field, Option<string>>,
                             hasher: (Option<string>, Salt) -> string, salt: Salt)
    ensures PasswordField in data && data[PasswordField].Some? ==>
      Updated(u, data, hasher, salt).passwordHash == hasher(data[PasswordField], salt)
    ensures !(PasswordField in data && data[PasswordField].Some?) ==>
      Updated(u, data, hasher, salt).passwordHash == u.passwordHash
  {
  }

  /**
   * Repeating an update leaves the record the last application alone would
   * leave: the fields are as the first one set them, and a password's hash is
   * the one made with the last call's salt. Without a password the two
   * applications agree exactly.
   */
  lemma UpdateRepeatedKeepsLast(u: User, data: map<Field, Option<string>>,
                                hasher: (Option<string>, Salt) -> string, first: Salt, second: Salt)
    ensures Updated(Updated(u, data, hasher, first), data, hasher, second) == Updated(u, data, hasher, second)
    ensures !(PasswordField in data && data[PasswordField].Some?) ==>
      Updated(u, data, hasher, first) == Updated(u, data, hasher, second)
  {
  }

  // ---------------------------------------------------------------------
  // RegistrationSerializer.create
  // ---------------------------------------------------------------------

  /**
   * The registration fields. The username column is nullable, so the
   * serializer does not require it.
   */
  datatype RegistrationData = RegistrationData(username: Option<string>, phoneNumber: string, password: string)

  /**
   * The registration fields that fail their declared rules: the phone
   * number's validators, the username's length, 8 to 128 characters of
   * password, and any text holding a NUL character.
   */
  function RegistrationFieldErrors(data: RegistrationData): (fields: set<string>)
    ensures fields <= {"phone_number", "username", "password"}
    ensures "phone_number" in fields <==> !ValidPhone(data.phoneNumber) || '\0' in data.phoneNumber
    ensures "username" in fields <==>
      data.username.Some? && (|data.username.value| > UsernameMaxLength || '\0' in data.username.value)
    ensures "password" in fields <==> !(8 <= |data.password| <= 128) || '\0' in data.password
  {
    (if ValidPhone(data.phoneNumber) && !HasNul(data.phoneNumber) then {} else {"phone_number"})
    + (if data.username.Some? && (|data.username.value| > UsernameMaxLength || HasNul(data.username.value))
       then {"username"} else {})
    + (if WithinBounds(data.password, RegistrationPasswordBounds) && !HasNul(data.password) then {} else {"password"})
  }

  /**
   * `RegistrationSerializer.create`, for data that passed the serializer's
   * field rules: `create_user(**validated_data)`, so each value reaches its
   * own column.
   */
  method Register(manager: UserManager, data: RegistrationData, salt: Salt) returns (id: Id)
    requires manager.Valid()
    requires RegistrationFieldErrors(data) == {}
    modifies manager
    ensures manager.Valid()
    ensures id !in old(manager.users)
    ensures manager.users == old(manager.users)[id :=
      NewUser(id, Some(data.phoneNumber), data.username, manager.hasher(Some(data.password), salt))]
  {
    var r := manager.CreateUser(Some(data.phoneNumber), data.username, Some(data.password), salt);
    id := r.value;
  }

  // ---------------------------------------------------------------------
  // LoginSerializer.validate
  // ---------------------------------------------------------------------

  datatype LoginRequest = LoginRequest(phoneNumber: string, password: string)

  /** The three fields a successful login returns. */
  datatype LoginResult = LoginResult(phoneNumber: Option<string>, username: Option<string>, token: SignedToken)

  /** Fields too long for their declared `max_length` (all are reported together), or a rejection by `validate`. */
  datatype LoginError = InvalidFields(fields: set<string>) | Rejected(message: string)

  const NotFoundMessage := "A user with this phone_number and password was not found."
  const DeactivatedMessage := "This user has been deactivated."

  /** The names of the login fields longer than their declared maximum or holding a NUL character. */
  function LoginFieldErrors(req: LoginRequest): (fields: set<string>)
    ensures fields <= {"phone_number", "password"}
    ensures "phone_number" in fields <==> |req.phoneNumber| > 11 || '\0' in req.phoneNumber
    ensures "password" in fields <==> |req.password| > 128 || '\0' in req.password
  {
    (if WithinBounds(req.phoneNumber, LoginPhoneBounds) && !HasNul(req.phoneNumber) then {} else {"phone_number"})
    + (if WithinBounds(req.password, LoginPasswordBounds) && !HasNul(req.password) then {} else {"password"})
  }

  /**
   * The three password rules side by side: registration and profile need 8
   * to 128 characters, login at most 128, and none allows a NUL character.
   * So every password registration accepts, login accepts, and a shorter
   * one only login accepts.
   */
  lemma PasswordRules(p: string, phone: string, username: Option<string>)
    ensures "password" !in RegistrationFieldErrors(RegistrationData(username, phone, p))
      <==> 8 <= |p| <= 128 && !HasNul(p)
    ensures "password" !in ProfileFieldErrors(map[PasswordField := Some(p)]) <==> 8 <= |p| <= 128 && !HasNul(p)
    ensures "password" !in LoginFieldErrors(LoginRequest(phone, p)) <==> |p| <= 128 && !HasNul(p)
    ensures "password" !in RegistrationFieldErrors(RegistrationData(username, phone, p)) ==>
      "password" !in LoginFieldErrors(LoginRequest(phone, p))
    ensures |p| < 8 && !HasNul(p) ==>
      "password" !in LoginFieldErrors(LoginRequest(phone, p))
      && "password" in RegistrationFieldErrors(RegistrationData(username, phone, p))
      && "password" in ProfileFieldErrors(map[PasswordField := Some(p)])
  {
  }

  /**
   * Login: field lengths first, then `authenticate` (a parameter standing for
   * Django's backend), then the no-match check, then the deactivated check,
   * and on success exactly the user's phone number, username and the token
   * read at `now`.
   */
  function Login(req: LoginRequest, authenticate: (string, string) -> Option<User>,
                 now: int, sign: Claims -> SignedToken): (r: Result<LoginResult, LoginError>)
    ensures LoginFieldErrors(req) != {} ==> r == Failure(InvalidFields(LoginFieldErrors(req)))
    ensures LoginFieldErrors(req) == {} ==>
      (authenticate(req.phoneNumber, req.password).None? <==> r == Failure(Rejected(NotFoundMessage)))
    ensures LoginFieldErrors(req) == {} ==>
      (r == Failure(Rejected(DeactivatedMessage)) <==>
        authenticate(req.phoneNumber, req.password).Some? && !authenticate(req.phoneNumber, req.password).value.isActive)
    ensures r.Success? <==>
      LoginFieldErrors(req) == {} && authenticate(req.phoneNumber, req.password).Some?
      && authenticate(req.phoneNumber, req.password).value.isActive
    ensures r.Success? ==>
      var u := authenticate(req.phoneNumber, req.password).value;
      r.value == LoginResult(u.phoneNumber, u.username, Token(u, now, sign))
  {
    var errors := LoginFieldErrors(req);
    if errors != {} then Failure(InvalidFields(errors))
    else match authenticate(req.phoneNumber, req.password)
      case None => Failure(Rejected(NotFoundMessage))
      case Some(user) =>
        if !user.isActive then Failure(Rejected(DeactivatedMessage))
        else Success(LoginResult(user.phoneNumber, user.username, Token(user, now, sign)))
  }

  /**
   * Registration followed by login: for a table holding the row `Register`
   * adds for `data` under `id`, when the backend authenticates the
   * registered phone number and password as that row, login succeeds with
   * the registered phone number and username and a token for that row's key.
   */
  lemma LoginAfterRegistration(users: map<Id, User>, id: Id, data: RegistrationData,
                               hasher: (Option<string>, Salt) -> string, salt: Salt,
                               authenticate: (string, string) -> Option<User>, now: int,
                               sign: Claims -> SignedToken)
    requires RegistrationFieldErrors(data) == {}
    requires id in users
    requires users[id] == NewUser(id, Some(data.phoneNumber), data.username, hasher(Some(data.password), salt))
    requires authenticate(data.phoneNumber, data.password) == Some(users[id])
    ensures var r := Login(LoginRequest(data.phoneNumber, data.password), authenticate, now, sign);
      r.Success? && r.value.phoneNumber == Some(data.phoneNumber) && r.value.username == data.username
      && r.value.token == Token(users[id], now, sign) && TokenClaims(users[id], now).id == id
  {
  }

  /**
   * Registration followed by login through the serializers themselves, with
   * an authentication backend that knows the registered user: the login
   * answers with the stored phone number and username.
   */
  method RegisterThenLogin(hasher: (Option<string>, Salt) -> string, salt: Salt, now: int,
                           sign: Claims -> SignedToken)
  {
    var m := new UserManager(hasher);
    var data := RegistrationData(Some("sara"), "09123456789", "secret-pass");
    assert ValidPhone(data.phoneNumber);
    var id := Register(m, data, salt);
    var u := m.users[id];
    var authenticate := (phone: string, password: string) =>
      if phone == data.phoneNumber && password == data.password then Some(u) else None;
    var r := Login(LoginRequest(data.phoneNumber, data.password), authenticate, now, sign);
    assert r == Success(LoginResult(Some("09123456789"), Some("sara"), Token(u, now, sign)));
  }
}
