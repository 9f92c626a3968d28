# Custom-JWT user accounts — a Dafny model

This project models the user-account logic of a Django service whose users are
keyed by phone number: how user rows are created (`UserManager.create_user`,
`create_superuser`), which phone numbers the field validators accept, the claim
set a session token carries, the profile update, registration and login
decisions of the API serializers, the exception handler that wraps validation
errors as `{"errors": ...}`, and the renderer that decodes a bytes token and
wraps success data as `{"user": ...}`.

Modules, one per source file or shared concern:

- `wrappers.dfy` — `Option` (Python's `None`) and `Result` (an operation that may raise).
- `values.dfy` — Python values in request/response dictionaries, their truth value,
  what `json.dumps` can encode, and `PyDict`, a dictionary shared by reference.
- `utf8.dfy` — strict UTF-8 decoding (`bytes.decode("utf-8")`, the well-formed
  sequences of section 4 of RFC 3629) and the encoder it inverts.
- `models.dfy` — the `User` row, `UserManager` (the manager with the table it saves
  to, a `map<Id, User>`), the phone validators, the token claims, `__str__`,
  `get_absolute_url`.
- `serializers.dfy` — password and login field lengths, `UserSerializer.update`,
  `RegistrationSerializer.create`, `LoginSerializer.validate`.
- `exceptions.dfy` — `core_exception_handler` and `_handle_generic_error` over a
  `Response` object whose `data` is reassigned in place.
- `renderers.dfy` — `UserJSONRenderer.render` over a caller's dictionary it mutates.

Foreign calls are parameters: `set_password` is the manager's `hasher`
(a function of the plaintext, or of None, and of the random salt drawn for
that call, which every operation that sets a password takes as `salt`), `jwt.encode` is `sign`, Django's
`authenticate` is a function of phone number and password, the framework's
`exception_handler` result is the `base` response, and the wall clock is an
integer `now` in epoch seconds.

The model follows what the code does, also where its docstrings or its evident
intent say otherwise: the token lives 6 days (`models.py:139`; its docstring
says 60 days), the username is optional at registration (the column is
nullable), a profile update may change the phone number, and
`create_superuser` stores its arguments swapped (see Findings).

## Model

| member | source | states |
|---|---|---|
| `Models.UserManager.CreateUser` | custom_jwt_auth/users/models.py:29-52 | a missing phone number raises TypeError and leaves the table unchanged; otherwise exactly one new row under a fresh key, with the given phone number and username, the hasher's output as password, active, not staff, not superuser |
| `Models.UserManager.CreateSuperuser` | custom_jwt_auth/users/models.py:54-80 | missing password raises first, then missing username, table unchanged; otherwise one new active row with both superuser flags set whose phone number is the supplied username and whose username is the supplied phone number (the positional call) |
| `Models.UserManager.CreateSuperuserIntended` | custom_jwt_auth/users/models.py:54-80 | corrected form: same error order plus create_user's missing-phone error; each value lands in its own column |
| `Models.SuperuserSwapExample` | custom_jwt_auth/users/models.py:75 | with username "admin" and valid phone "09123456789", the stored phone number is "admin", which the phone validator refuses |
| `Models.ValidPhone` | custom_jwt_auth/users/models.py:95-105 | the field's regex and max_length 11 together; anything accepted has 10 or 11 characters and starts with 0 or 9 |
| `Models.ValidDigitString` | custom_jwt_auth/users/models.py:95-102 | for a digit string, the field accepts it iff it is `0` plus ten digits or `9` plus nine digits |
| `Models.ValidPhoneShape` | custom_jwt_auth/users/models.py:95-102 | every accepted value has 10 or 11 characters (within max_length 11), starts with 0 or 9, and is all digits or a 9-number with one final newline |
| `Models.TrailingNewlineAccepted` | custom_jwt_auth/users/models.py:98 | Python's `$` lets "9123456789\n" through both the regex and max_length |
| `Models.PhoneRegexImpliesFieldRegex` | custom_jwt_auth/users/models.py:89-98 | every string the unused `phone_regex` matches, the field's regex matches |
| `Models.FieldRegexAcceptsMore` | custom_jwt_auth/users/models.py:89-102 | the converse fails: "01234567890" is accepted by the field and refused by `phone_regex` |
| `Models.TokenClaims` | custom_jwt_auth/users/models.py:139-142 | the claim set holds the row's key as `id` and `exp` = now + 518400 s (6 days) |
| `Models.Token` | custom_jwt_auth/users/models.py:127-147 | the `token` property is the signer applied to the claims {id: the row's key, exp: now + 518400} |
| `Models.TokenRecomputedOnAccess` | custom_jwt_auth/users/models.py:127-142 | each read of `token` signs the claims of its own time: two reads sign claims with the same subject and expiries that differ by the elapsed time; the expiry is well short of the docstring's 60 days |
| `Models.Display` | custom_jwt_auth/users/models.py:121-125 | `__str__` is the phone number |
| `Models.DisplayOfCreatedUser` | custom_jwt_auth/users/models.py:48 | a row created from a phone number displays as exactly that number |
| `Models.AbsoluteUrl` | custom_jwt_auth/users/models.py:149-156 | a row with a username has URL "/users/" + username + "/" |
| `Models.AbsoluteUrlNamesUser` | custom_jwt_auth/users/models.py:156 | the username is recovered from the URL by dropping the 7-character prefix and the final slash |
| `Serializers.ProfileFieldErrors` | custom_jwt_auth/users/api/serializers.py:12-20 | a supplied profile field is refused exactly when the phone number is None or fails the column's validators, the username exceeds 255 characters, the password is None or outside 8 to 128 characters, or the field's text holds a NUL character |
| `Serializers.RegistrationFieldErrors` | custom_jwt_auth/users/api/serializers.py:51-58 | a registration field is refused exactly when the phone number fails the column's validators, the username exceeds 255 characters, the password is outside 8 to 128 characters, or the field's text holds a NUL character |
| `Serializers.PasswordRules` | custom_jwt_auth/users/api/serializers.py:12-16 | across the three serializers' field rules: profile and registration passwords need 8 to 128 characters, login passwords at most 128, and none may hold a NUL character; every password registration accepts, login accepts, and a shorter one only login accepts |
| `Serializers.LoginFieldErrors` | custom_jwt_auth/users/api/serializers.py:71-73 | a login request's phone number over 11 or password over 128 characters, or either holding a NUL character, is reported, both together when both are |
| `Serializers.Update` | custom_jwt_auth/users/api/serializers.py:23-41 | for data with no `ProfileFieldErrors`, the loop over the validated entries saves exactly the record `Updated` describes, under the same key, and nothing else in the table changes |
| `Serializers.UpdateAssignsSupplied` | custom_jwt_auth/users/api/serializers.py:30-32 | every supplied phone number or username is assigned as given, with no format or uniqueness check |
| `Serializers.UpdateKeepsTheRest` | custom_jwt_auth/users/api/serializers.py:28-32 | fields not supplied, and the key, names and flags, keep their values |
| `Serializers.UpdatePasswordHashed` | custom_jwt_auth/users/api/serializers.py:28-36 | a supplied password is stored only as its hash with this call's salt; without one the stored hash is kept |
| `Serializers.UpdateRepeatedKeepsLast` | custom_jwt_auth/users/api/serializers.py:23-41 | an update applied twice leaves what the second application alone leaves (its salt decides the hash); without a password, any two applications agree |
| `Serializers.Register` | custom_jwt_auth/users/api/serializers.py:60-64 | for data with no `RegistrationFieldErrors`, registration adds one row with exactly the validated phone number, username and salted password hash, through create_user |
| `Serializers.Login` | custom_jwt_auth/users/api/serializers.py:76-90 | field lengths first; then no authenticated user gives "not found", an inactive one "deactivated", in that order; success iff an active user is authenticated, returning exactly its phone number, username and token |
| `Serializers.LoginAfterRegistration` | custom_jwt_auth/users/api/serializers.py:83-90 | for a table holding the row `Register` adds, when the backend authenticates the registered credentials as that row, login returns the registered phone number and username and that row's token, whose subject is its key |
| `Exceptions.HandlerFor` | custom_jwt_auth/users/api/exceptions.py:13-21 | a custom handler exists exactly for the class name "ValidationError" |
| `Exceptions.HandleGenericError` | custom_jwt_auth/users/api/exceptions.py:28-35 | the same response is returned with data `{"errors": old data}` and the status kept; with no response it raises AttributeError |
| `Exceptions.CoreExceptionHandler` | custom_jwt_auth/users/api/exceptions.py:4-25 | other class names get the base response back unchanged; "ValidationError" gets it wrapped, status kept, or AttributeError when the base handler gave none |
| `Exceptions.EnvelopeRoundTrip` | custom_jwt_auth/users/api/exceptions.py:33 | the envelope has the single key "errors" and gives back the original data |
| `Renderers.Render` | custom_jwt_auth/users/api/renderers.py:13-30 | the result is `RenderOf` of the data it was given and the caller's dictionary ends as `ItemsAfterRender` describes, including the token replacement that stays even when `json.dumps` raises |
| `Renderers.ErrorsPassThrough` | custom_jwt_auth/users/api/renderers.py:20-22 | truthy errors: the base renderer gets the data unchanged |
| `Renderers.EmptyErrorsTakeSuccessPath` | custom_jwt_auth/users/api/renderers.py:20-21 | an absent, None or empty `errors` entry never reaches the base renderer |
| `Renderers.TokenStepOnlyChangesToken` | custom_jwt_auth/users/api/renderers.py:24-28 | a text or missing token leaves the data as is; a bytes token becomes its UTF-8 text (or the decode raises) and no other key changes |
| `Renderers.SuccessDocument` | custom_jwt_auth/users/api/renderers.py:24-30 | a success-path render dumps `{"user": data}` with the caller's updated data, whose token is not bytes |
| `Renderers.BytesTokenRenderedAsText` | custom_jwt_auth/users/api/renderers.py:24-30 | a token given as the UTF-8 bytes of some text is dumped as that text |
| `Renderers.EnvelopeRendering` | custom_jwt_auth/users/api/renderers.py:20-30 | an error envelope renders successfully to the base renderer's output exactly when its wrapped data is truthy, and then as itself; a falsy, serializable one is dumped under "user" |
| `Utf8.DecodeFirst` | custom_jwt_auth/users/api/renderers.py:28 | a well-formed UTF-8 sequence has 1 to 4 bytes and decodes to a scalar value; one byte exactly for ASCII |
| `Utf8.DecodeEncode` | custom_jwt_auth/users/api/renderers.py:28 | `decode("utf-8")` of the UTF-8 encoding of any text is that text |
| `Utf8.DecodeAscii` | custom_jwt_auth/users/api/renderers.py:28 | ASCII bytes (all a signed token's bytes) decode to the same characters |

## Findings

| source | as written | input that shows it | evidently intended | confidence | as-written member | corrected member |
|---|---|---|---|---|---|---|
| custom_jwt_auth/users/models.py:75 | `self.create_user(username, phone_number, password)` binds the username to `create_user`'s `phone_number` parameter | `create_superuser(username="admin", phone_number="09123456789", password=...)` stores phone number "admin" and username "09123456789"; with `phone_number=None` it even succeeds | `self.create_user(phone_number, username, password)` | high; not executed | `Models.UserManager.CreateSuperuser`, `Models.SuperuserSwapExample` | `Models.UserManager.CreateSuperuserIntended` |

## Left out

- Password hashing and verification (`set_password`, Django's authentication backend): the hasher and `authenticate` are parameters. The hasher is deterministic in the plaintext and the salt; drawing a fresh random salt per call is modelled by the caller passing a `salt`, and the unusable password stored for None is whatever the hasher gives for None.
- JWT signing (HS256 with the secret key) and the token's wire form: `sign` is a parameter; only the claim set is modelled. Token decoding and request authentication do not appear in the modelled files.
- The clock: `now` is an integer; the local-time `strftime("%s")` conversion is not modelled.
- The database: uniqueness of phone number and username, timestamps and permission groups are not modelled; `Insert` and `Save` stand for `save()`, which the model treats as never failing, column-length violations included. A backend that enforces `varchar(n)`, such as PostgreSQL, raises `DataError` instead, for example on `create_superuser(username="administrator", ...)`, whose username lands in the 11-character phone_number column.
- `\d` is modelled as the ASCII digits; Python's `re` on text also accepts other Unicode decimal digits.
- DRF field machinery: whitespace trimming, the refusal of blank values, the generated uniqueness validators and `to_representation`. The declared length rules, the phone validators and every CharField's refusal of text holding a NUL character are modelled as `RegistrationFieldErrors` and `ProfileFieldErrors`, and `Register` and `Update` require data free of them, since the framework calls them only after validation.
- `print(data)` in `LoginSerializer.validate` writes the login request, plaintext password included, to standard output; output is not modelled.
- `Models.AbsoluteUrl`: `reverse()` is framework code; the route shape is the one the model tests expect, and for a row without a username no URL is modelled (None). `reverse()` also percent-encodes the username (`"a b"` gives `/users/a%20b/`) and raises NoReverseMatch for a username containing `/`; neither is modelled, and the username column has no validator that rules them out.
- `Models.AbsoluteUrlNamesUser`: holds for the unencoded route shape only, so for usernames that `reverse()` would leave as they are.
- `Serializers.Update`: `validated_data.pop` also removes `password` from the caller's dictionary; the model pops from a local copy, as nothing reads that dictionary afterwards. Only the serializer's writable fields (phone number, username, password) can appear in the data.
- `Renderers.Render`: the base JSON renderer's output and the text `json.dumps` produces are opaque; of `json.dumps`'s failures only bytes values are modelled. Data that is not a dictionary is not modelled.
- The `context` argument of the exception handlers is unused by them and is not modelled.
- Views, routers and their debugging output, and the `{"user": ...}` request envelope, are HTTP plumbing outside this model.
