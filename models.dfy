/**
 * The phone-number-keyed user model: the record, the manager that creates
 * records and saves them to the users table, the phone-number validators,
 * the token claim set, and the record's text and URL forms.
 */
module Models {
  import opened Wrappers
  import opened Values

  /** A primary key, assigned by the table on the first save. */
  type Id = nat

  /** The random salt `make_password` draws afresh on every call. */
  type Salt = string

  /**
   * A row of the users table. The password column holds only the hasher's
   * output. Timestamps and permission groups are not modelled.
   */
  datatype User = User(
    id: Id,
    phoneNumber: Option<string>,
    username: Option<string>,
    passwordHash: string,
    firstName: Option<string>,
    lastName: Option<string>,
    isActive: bool,
    isStaff: bool,
    isSuperuser: bool)

  datatype TypeError = TypeError(message: string)

  const MissingPhoneMessage := "Users must have a phone number."
  const MissingSuperuserPasswordMessage := "Superusers must have a password."
  const MissingSuperuserUsernameMessage := "Superusers must have a username."

  /**
   * The record `self.model(username=..., phone_number=...)` builds, with the
   * column defaults, once `set_password` has stored `hash` and `save()`
   * has assigned `id`.
   */
  function NewUser(id: Id, phoneNumber: Option<string>, username: Option<string>, hash: string): User
  {
    User(id, phoneNumber, username, hash, None, None,
         isActive := true, isStaff := false, isSuperuser := false)
  }

  /** A freshly created user after both superuser flags are set and saved. */
  function SuperuserRecord(id: Id, phoneNumber: Option<string>, username: Option<string>, hash: string): User
  {
    NewUser(id, phoneNumber, username, hash).(isSuperuser := true, isStaff := true)
  }

  /**
   * `User.objects` together with the table it saves to. `hasher` stands for
   * `set_password`: a one-way function of the plaintext (or of None, for
   * which Django stores an unusable password) and of the salt drawn for that
   * call, which each operation that sets a password takes as a parameter.
   */
  class UserManager {
    var users: map<Id, User>
    var nextId: Id
    const hasher: (Option<string>, Salt) -> string

    /** Every row is stored under its own primary key, below the next one to assign. */
    ghost predicate Valid()
      reads this
    {
      forall id :: id in users ==> users[id].id == id && id < nextId
    }

    constructor (hasher: (Option<string>, Salt) -> string)
      ensures Valid()
      ensures users == map[] && this.hasher == hasher
    {
      users := map[];
      nextId := 0;
      this.hasher := hasher;
    }

    /** The first `save()` of a new record: the table assigns the next primary key. */
    method Insert(u: User) returns (id: Id)
      requires Valid()
      modifies this
      ensures Valid()
      ensures id !in old(users)
      ensures users == old(users)[id := u.(id := id)]
    {
      id := nextId;
      users := users[id := u.(id := id)];
      nextId := nextId + 1;
    }

    /** A later `save()`: the stored row is replaced by the record. */
    method Save(u: User)
      requires Valid() && u.id in users
      modifies this
      ensures Valid()
      ensures users == old(users)[u.id := u]
    {
      users := users[u.id := u];
    }

    /**
     * `create_user(phone_number, username=None, password=None)`: refuses a
     * missing phone number and otherwise adds exactly one active, non-staff,
     * non-superuser row. The phone number's format is not checked here.
     */
    method CreateUser(phoneNumber: Option<string>, username: Option<string>, password: Option<string>, salt: Salt)
      returns (r: Result<Id, TypeError>)
      requires Valid()
      modifies this
      ensures Valid()
      ensures phoneNumber.None? ==> r == Failure(TypeError(MissingPhoneMessage)) && users == old(users)
      ensures phoneNumber.Some? ==> r.Success? && r.value !in old(users)
      ensures r.Success? ==> users == old(users)[r.value := NewUser(r.value, phoneNumber, username, hasher(password, salt))]
      ensures r.Success? ==>
        var u := users[r.value];
        u.phoneNumber == phoneNumber && u.username == username && u.passwordHash == hasher(password, salt)
        && u.isActive && !u.isStaff && !u.isSuperuser
    {
      if phoneNumber.None? {
        return Failure(TypeError(MissingPhoneMessage));
      }
      var user := NewUser(0, phoneNumber, username, "");
      user := user.(passwordHash := hasher(password, salt));
      var id := Insert(user);
      r := Success(id);
    }

    /**
     * `create_superuser(username, phone_number, password)` as written: after
     * refusing a missing password, then a missing username, it calls
     * `create_user(username, phone_number, password)` positionally, so the
     * username lands in the phone number column and the phone number in the
     * username column. Both superuser flags are then set and saved.
     */
    method CreateSuperuser(username: Option<string>, phoneNumber: Option<string>, password: Option<string>, salt: Salt)
      returns (r: Result<Id, TypeError>)
      requires Valid()
      modifies this
      ensures Valid()
      ensures password.None? ==> r == Failure(TypeError(MissingSuperuserPasswordMessage))
      ensures password.Some? && username.None? ==> r == Failure(TypeError(MissingSuperuserUsernameMessage))
      ensures r.Failure? ==> users == old(users)
      ensures password.Some? && username.Some? ==> r.Success? && r.value !in old(users)
      ensures r.Success? ==>
        users == old(users)[r.value := SuperuserRecord(r.value, username, phoneNumber, hasher(password, salt))]
      ensures r.Success? ==>
        var u := users[r.value];
        u.phoneNumber == username && u.username == phoneNumber
        && u.isSuperuser && u.isStaff && u.isActive
    {
      if password.None? {
        return Failure(TypeError(MissingSuperuserPasswordMessage));
      }
      if username.None? {
        return Failure(TypeError(MissingSuperuserUsernameMessage));
      }
      r := CreateUser(username, phoneNumber, password, salt);
      var id := r.value;
      var user := users[id].(isSuperuser := true, isStaff := true);
      Save(user);
    }

    /**
     * `create_superuser` with the call `create_user(phone_number, username,
     * password)` it evidently intends: each value lands in its own column.
     */
    method CreateSuperuserIntended(username: Option<string>, phoneNumber: Option<string>, password: Option<string>,
                                   salt: Salt)
      returns (r: Result<Id, TypeError>)
      requires Valid()
      modifies this
      ensures Valid()
      ensures password.None? ==> r == Failure(TypeError(MissingSuperuserPasswordMessage))
      ensures password.Some? && username.None? ==> r == Failure(TypeError(MissingSuperuserUsernameMessage))
      ensures password.Some? && username.Some? && phoneNumber.None? ==> r == Failure(TypeError(MissingPhoneMessage))
      ensures r.Failure? ==> users == old(users)
      ensures password.Some? && username.Some? && phoneNumber.Some? ==> r.Success? && r.value !in old(users)
      ensures r.Success? ==>
        users == old(users)[r.value := SuperuserRecord(r.value, phoneNumber, username, hasher(password, salt))]
      ensures r.Success? ==>
        var u := users[r.value];
        u.phoneNumber == phoneNumber && u.username == username
        && u.isSuperuser && u.isStaff && u.isActive
    {
      if password.None? {
        return Failure(TypeError(MissingSuperuserPasswordMessage));
      }
      if username.None? {
        return Failure(TypeError(MissingSuperuserUsernameMessage));
      }
      r := CreateUser(phoneNumber, username, password, salt);
      if r.Success? {
        var id := r.value;
        var user := users[id].(isSuperuser := true, isStaff := true);
        Save(user);
      }
    }
  }

  // ---------------------------------------------------------------------
  // Phone-number validators
  // ---------------------------------------------------------------------

  /** `\d`, over ASCII digits. */
  predicate IsDigit(c: char)
  {
    '0' <= c <= '9'
  }

  predicate AllDigits(s: string)
  {
    forall i :: 0 <= i < |s| ==> IsDigit(s[i])
  }

  /** `s` is `lead` followed by exactly `n` digits. */
  predicate LeadThenDigits(s: string, lead: string, n: nat)
  {
    |s| == |lead| + n && s[..|lead|] == lead && AllDigits(s[|lead|..])
  }

  /**
   * `re.search(r"^<lead>\d{n}$", s)`: without MULTILINE, `^` matches only at
   * the start, and `$` at the end or just before a final newline.
   */
  predicate AnchoredMatch(s: string, lead: string, n: nat)
  {
    || LeadThenDigits(s, lead, n)
    || (|s| > 0 && s[|s| - 1] == '\n' && LeadThenDigits(s[..|s| - 1], lead, n))
  }

  /** The `phone_number` field's RegexValidator, `^0\d{10}$|^9\d{9}$`. */
  predicate FieldRegexMatches(s: string)
  {
    AnchoredMatch(s, "0", 10) || AnchoredMatch(s, "9", 9)
  }

  /** The stricter class attribute `phone_regex`, `^09\d{9}$|^9\d{9}$`, which no field uses. */
  predicate PhoneRegexMatches(s: string)
  {
    AnchoredMatch(s, "09", 9) || AnchoredMatch(s, "9", 9)
  }

  /** The `max_length` of the `phone_number` column. */
  const PhoneMaxLength := 11

  /** The `phone_number` field's validators together: its regex and its maximum length. */
  predicate ValidPhone(s: string)
    ensures ValidPhone(s) ==> 10 <= |s| <= PhoneMaxLength && (s[0] == '0' || s[0] == '9')
  {
    FieldRegexMatches(s) && |s| <= PhoneMaxLength
  }

  /**
   * For a string of digits, the field accepts exactly `0` followed by ten
   * digits and `9` followed by nine digits.
   */
  lemma ValidDigitString(s: string)
    requires AllDigits(s)
    ensures ValidPhone(s) <==> (|s| == 11 && s[0] == '0') || (|s| == 10 && s[0] == '9')
  {
  }

  /**
   * Everything the field accepts fits its column: it is all digits, or (by
   * Python's `$`) a `9` followed by nine digits and a final newline.
   */
  lemma ValidPhoneShape(s: string)
    requires ValidPhone(s)
    ensures 10 <= |s| <= PhoneMaxLength
    ensures s[0] == '0' || s[0] == '9'
    ensures AllDigits(s) || (|s| == 11 && s[0] == '9' && s[10] == '\n' && AllDigits(s[..10]))
  {
  }

  /** A number with a final newline passes both of the field's validators. */
  lemma TrailingNewlineAccepted()
    ensures ValidPhone("9123456789\n")
  {
  }

  /** Every number the unused `phone_regex` matches, the field's regex matches too. */
  lemma PhoneRegexImpliesFieldRegex(s: string)
    requires PhoneRegexMatches(s)
    ensures FieldRegexMatches(s)
  {
  }

  /** The converse fails: the field accepts `01…`, which `phone_regex` refuses. */
  lemma FieldRegexAcceptsMore()
    ensures FieldRegexMatches("01234567890") && ValidPhone("01234567890")
    ensures !PhoneRegexMatches("01234567890")
  {
    var s := "01234567890";
    assert s[..1] == "0";
    assert s[1..] == "1234567890";
    assert s[..2][1] == '1';
    assert s[..|s| - 1] != s;
  }

  // ---------------------------------------------------------------------
  // Token claims, text and URL
  // ---------------------------------------------------------------------

  /** The token's lifetime: 6 days (the docstring's 60 days is not what the code does). */
  const TokenLifetimeDays := 6
  const SecondsPerDay := 86400

  /** The claim set the token signs: the user's primary key and an expiry in epoch seconds. */
  datatype Claims = Claims(id: Id, exp: int)

  /** What the JWT library returns: text, or bytes in older versions of the library. */
  datatype SignedToken = TextToken(text: string) | ByteToken(bytes: seq<byte>)

  /** The claims `_generate_jwt_token` builds at epoch second `now`. */
  function TokenClaims(u: User, now: int): (c: Claims)
    ensures c.id == u.id
    ensures c.exp == now + 518400
  {
    Claims(u.id, now + TokenLifetimeDays * SecondsPerDay)
  }

  /**
   * The `token` property: built afresh on every access, signed by `sign`
   * (`jwt.encode` with the secret key and HS256).
   */
  function Token(u: User, now: int, sign: Claims -> SignedToken): (t: SignedToken)
    ensures t == sign(Claims(u.id, now + 518400))
  {
    sign(TokenClaims(u, now))
  }

  /**
   * Each read of `token` signs the claims of its own time: two reads at
   * different times sign claims with the same subject and different
   * expiries, each six days after its own read.
   */
  lemma TokenRecomputedOnAccess(u: User, t1: int, t2: int, sign: Claims -> SignedToken)
    ensures Token(u, t1, sign) == sign(TokenClaims(u, t1)) && Token(u, t2, sign) == sign(TokenClaims(u, t2))
    ensures TokenClaims(u, t2).exp - TokenClaims(u, t1).exp == t2 - t1
    ensures TokenClaims(u, t1).id == TokenClaims(u, t2).id == u.id
    ensures t1 != t2 ==> TokenClaims(u, t1) != TokenClaims(u, t2)
    ensures TokenClaims(u, t1).exp < t1 + 60 * SecondsPerDay
  {
  }

  /** `str(x)` for a nullable text column. */
  function PyStr(o: Option<string>): (s: string)
    ensures o.Some? ==> s == o.value
    ensures o.None? ==> s == "None"
  {
    match o
    case Some(v) => v
    case None => "None"
  }

  /** `__str__`: the record's phone number as text. */
  function Display(u: User): (s: string)
    ensures u.phoneNumber.Some? ==> s == u.phoneNumber.value
  {
    PyStr(u.phoneNumber)
  }

  const UsersPrefix := "/users/"

  /**
   * `get_absolute_url`: the detail route for the record's username, or None
   * for a record without a username.
   */
  function AbsoluteUrl(u: User): (url: Option<string>)
    ensures url.Some? <==> u.username.Some?
    ensures url.Some? ==> url.value == "/users/" + u.username.value + "/"
  {
    match u.username
    case Some(name) => Some(UsersPrefix + name + "/")
    case None => None
  }

  /** The username is recovered from its URL by stripping the prefix and the final slash. */
  lemma AbsoluteUrlNamesUser(u: User)
    requires u.username.Some?
    ensures var url := AbsoluteUrl(u).value;
      |url| == |u.username.value| + 8 && url[7..|url| - 1] == u.username.value
  {
  }

  /** A record created from a phone number displays as that phone number. */
  lemma DisplayOfCreatedUser(id: Id, phone: string, username: Option<string>, hash: string)
    ensures Display(NewUser(id, Some(phone), username, hash)) == phone
  {
  }

  /**
   * Finding, as written: a superuser created with a valid phone number and the
   * username "admin" is stored with "admin" as its phone number, which the
   * field's validator refuses, and with the phone number as its username.
   */
  lemma SuperuserSwapExample(id: Id, hash: string)
    ensures ValidPhone("09123456789")
    ensures var u := SuperuserRecord(id, Some("admin"), Some("09123456789"), hash);
      u.phoneNumber == Some("admin") && !ValidPhone("admin") && u.username == Some("09123456789")
  {
  }

  /** The same example run through the manager itself: the stored superuser has its columns swapped. */
  method SuperuserSwapRun(hasher: (Option<string>, Salt) -> string, salt: Salt)
  {
    var m := new UserManager(hasher);
    var r := m.CreateSuperuser(Some("admin"), Some("09123456789"), Some("secret-pass"), salt);
    assert r.Success?;
    assert m.users[r.value].phoneNumber == Some("admin") && !ValidPhone("admin");
    assert m.users[r.value].username == Some("09123456789");
    assert m.users[r.value].isSuperuser && m.users[r.value].isStaff;
  }
}
