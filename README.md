# Service marketplace backend: accounts, OTP gate, bookings, payment check

A Dafny model of the core of a Django REST marketplace backend (`app/Auth`):

- the one-time-password gate (`otp_service.py`): a single-slot dictionary from
  e-mail address to the last code issued, a six-digit random code per issue, and
  a lookup that compares without consuming;
- the account rules (`models.py`, `serializers.py`): sign-up field checks, the
  ordered checks of `SignUpserializer.validate`, `create`, lower-casing on
  `save`, the `create_user` / `create_superuser` manager methods, one profile
  per user made by the `post_save` hook, and login validation;
- the views (`views.py`): `register`, `verify_otp`, `login`, booking creation,
  the customer and provider booking lists, the status PATCH with its
  404 / 403 / 400 order, admin service creation, and the control flow of
  `verify_payment` over an opaque HMAC.

Layout, one module per file:

- `results.dfy` (`Results`): `Option`, `Result`, `Outcome`.
- `text.dfy` (`Text`): `str.lower()` on ASCII, the split point of
  `rsplit("@", 1)`, and `str(n)` for naturals with its inverse.
- `otp_service.dfy` (`OtpService`): code format, `Issue`, `VerifyMockOtp`.
- `models.dfy` (`Models`): rows, credentials, e-mail normalisation, superuser
  flags, profile choice, status choices, `validate_file_size`, `Booking.clean`.
- `serializers.dfy` (`Serializers`): sign-up, login and booking serializers.
- `views.dfy` (`Views`): what each view decides, as functions of the tables.
- `backend.dfy` (`Backend`): class `Store` holding the tables and `OTP_STORE`.
  Its methods perform the writes and are proved to follow the `Views` and
  `Serializers` decisions. Its `Valid()` keeps e-mails unique and lower-case,
  gives every user exactly one profile of the kind `is_provider` names, and keeps
  foreign keys resolvable.

Representation choices:

- A profile is identified by the id of the user who owns it. `Store.customers`
  and `Store.providers` are the owners of customer and provider profiles.
- Ids come from a counter (`nextId`) instead of `uuid4()`; only their freshness
  matters to the code.
- `set_password` yields `Hashed(password)` (or `Unusable` for `None`), and
  `check_password` compares against it. This is an injective stand-in for the hash.
- The HMAC-SHA256 hex digest is a function parameter `hmac(secret, body)`.
- `randint(100000, 999999)` is a nondeterministic choice in that range.
- Times are integers on one clock. Prices are integers in minor units.
- A caller is a user id. A user who is not in a table simply has no profile.

Where the code and the design description disagree, the model follows the code:

- Login: `LoginSerializer.validate` already rejects an unknown, unverified or
  wrong-password login with a 400. The view's own 404 and 401 branches are
  therefore never reached (`Views.Login`).
- Duplicate e-mail: the unique `email` column gives the sign-up serializer a
  field-level uniqueness check with an exact match. An exactly stored address is
  therefore a field error on `email` whatever the passwords, and the duplicate
  branch of `validate` never fires (`Serializers.DuplicateEmailIsFieldError`).
  But `save` stores the address lower-cased: an upper-case variant of a stored
  address passes validation and then hits the unique column
  (`Serializers.CaseVariantPassesSignUp`, `Backend.Store.Register`).
- The e-mail format branch of `SignUpserializer.validate` catches the REST
  framework's `ValidationError`, which Django's `EmailValidator` never raises,
  so its own message could not be produced. The branch is dead in any case: the
  field-level e-mail check runs first (`Serializers.ValidateEmailCheckUnreachable`).
- `ProviderBookingListView` has no route in `app/api/urls.py`, so no client can
  fetch the provider list that `Views.ProviderBookings` describes; the status
  PATCH still checks ownership the same way (`Views.UpdatableIffListed`).
- `phone_number` is a nullable column, so a sign-up may send a null phone number.
  The duplicate-phone check then looks for stored users without one
  (`Serializers.NullPhoneRefusedIffNullStored`).
- `is_verified` is a writable sign-up field, so an account can start verified
  (`Serializers.SignUpCanSetVerified`).
- A booking's schedule is never checked on creation (`Views.CreateNeverChecksSchedule`).
  `Booking.clean` itself uses `<`, so a schedule equal to now passes (`Models.CleanAcceptsNow`).
- Status updates have no transition check; any of the four statuses can be
  written over any other (`Views.AnyStatusFromAnyStatus`).
- OTP codes are never consumed: a correct code verifies again
  (`Views.VerifyOtpRepeats`).
- `SignUpserializer.create` reads `is_provider` with `[...]`. A JSON sign-up
  without that field passes validation and then fails with a `KeyError`
  (`Serializers.SignUpCreate`).
- The signature comparison is a plain `==`, not a constant-time comparison.

## Model

| member | source | states |
|---|---|---|
| `Text.Lower` | app/Auth/models.py:65-66 | lower-casing keeps the length and maps every character to its lower-case form |
| `Text.LowerIsLower` | app/Auth/models.py:61-67 | a lower-cased e-mail has no upper-case letter, and lower-casing it again changes nothing |
| `Text.DecimalString` | app/Auth/otp_service.py:6 | `str(n)` is a non-empty run of decimal digits whose first digit is `0` only for zero |
| `Text.DecimalRoundTrip` | app/Auth/otp_service.py:6 | the decimal string of `n` reads back as `n` |
| `Text.DecimalLength` | app/Auth/otp_service.py:6 | a number with k decimal digits prints as exactly k characters |
| `OtpService.OtpCode` | app/Auth/otp_service.py:6 | every code drawn from 100000..999999 is six digits with no leading zero and denotes the drawn number |
| `OtpService.Issue` | app/Auth/otp_service.py:7 | issuing stores the code under the e-mail, replacing any earlier one, and leaves every other e-mail's code as it was |
| `OtpService.VerifyMockOtp` | app/Auth/otp_service.py:11-12 | a code verifies iff one is stored for the e-mail and equals the submitted code |
| `OtpService.NeverIssuedNeverVerifies` | app/Auth/otp_service.py:11-12 | an e-mail that was never issued a code never verifies |
| `OtpService.OnlyLatestCodeVerifies` | app/Auth/otp_service.py:7-12 | after a re-issue exactly the new code verifies; a stale code fails unless equal to the new one |
| `OtpService.IssueKeepsOtherEmails` | app/Auth/otp_service.py:7 | issuing for one e-mail does not change verification for any other e-mail |
| `Backend.Store.SendMockOtp` | app/Auth/otp_service.py:5-9 | returns a six-digit code and the store afterwards is the old store with that code issued under the e-mail |
| `Models.ValidateFileSize` | app/Auth/models.py:12-15 | a file passes iff its size is at most 2 * 1024 * 1024 bytes |
| `Models.FileSizeBoundary` | app/Auth/models.py:13-14 | exactly 2 MiB is accepted and one byte more is refused |
| `Models.CheckPasswordAfterSet` | app/Auth/models.py:24 | a password set through `set_password` matches exactly that password; an unusable one matches nothing |
| `Models.FindByEmail` | app/Auth/views.py:44 | `objects.get(email=...)` finds the user with exactly that e-mail, and fails iff there is none |
| `Models.SaveAfterNormalize` | app/Auth/models.py:19-26 | lower-casing on save absorbs `normalize_email`: the stored address is the lower-cased input |
| `Models.ManagerUser` | app/Auth/models.py:19-26 | the user `create_user` builds has the normalised e-mail and the given phone number, stores the password only via `set_password`, and has every flag left out false |
| `Models.SuperuserFields` | app/Auth/models.py:28-37 | staff and superuser default to true; either given false is refused, `is_staff` first; other fields pass through |
| `Models.CreateProfile` | app/Auth/models.py:99-105 | a first save creates exactly one profile, provider iff `is_provider`; a later save creates none |
| `Models.ParseStatus` | app/Auth/views.py:150-152 | a status is accepted iff it is a key of `STATUS_CHOICES`, and it is then the status with that stored value |
| `Models.ParseStatusValue` | app/Auth/models.py:125-130 | the stored value of each of the four statuses is accepted as that status |
| `Models.CleanSchedule` | app/Auth/models.py:140-142 | `clean` refuses a schedule iff it is strictly before now |
| `Models.CleanAcceptsNow` | app/Auth/models.py:141 | a schedule equal to now passes `clean` |
| `Serializers.SignUpFieldErrors` | app/Auth/serializers.py:7-19 | a field fails iff its constraint fails: the e-mail well formed, at most 254 characters and not stored exactly; a non-blank phone; `password` of 8 to 128 characters and `password2` of at least 8 |
| `Serializers.DuplicateEmailIsFieldError` | app/Auth/models.py:46 | an exactly stored e-mail is a field error on `email` whatever the passwords, so `validate`'s duplicate branch never fires through `is_valid` |
| `Serializers.Validate` | app/Auth/serializers.py:22-39 | `validate` passes iff passwords match, the e-mail is well formed, and neither the exact e-mail nor the phone is stored |
| `Serializers.FirstFailureIsFirst` | app/Auth/serializers.py:22-39 | a check sequence reports check k iff k fails and every earlier check holds, and passes iff all hold |
| `Serializers.ValidateReportsFirstFailure` | app/Auth/serializers.py:22-39 | `validate` reports the first failing check in the order passwords, e-mail format, e-mail duplicate, phone duplicate |
| `Serializers.DuplicateEmailRejected` | app/Auth/serializers.py:34-35 | inside `validate`, an exactly stored e-mail never passes, and is reported as a duplicate once the earlier checks pass, whatever the phone |
| `Serializers.SignUpValidate` | app/Auth/serializers.py:6-39 | field errors are reported together before `validate` runs; with no field error the result is exactly `validate`'s; sign-up passes iff both stages pass |
| `Serializers.NullPhoneRefusedIffNullStored` | app/Auth/serializers.py:37-38 | a null phone number passes the field stage and is then refused as a duplicate exactly when a stored user has no phone number |
| `Serializers.ValidateEmailCheckUnreachable` | app/Auth/serializers.py:29-32 | through `is_valid` the format check inside `validate` never fires |
| `Serializers.SignUpCreate` | app/Auth/serializers.py:41-54 | `create` fails iff `is_provider` is absent; otherwise it copies e-mail, phone and `is_provider`, takes `is_verified` defaulting to false, and stores the password only via `set_password` |
| `Serializers.SignUp` | app/Auth/serializers.py:22-54 | the user to save exists iff validation passes and `is_provider` is given; a validation error is reported unchanged; after validation passes the result is exactly `create`'s, so a missing `is_provider` is the `KeyError` |
| `Serializers.SignUpCanSetVerified` | app/Auth/serializers.py:50 | a client that sends `is_verified` true registers an already verified user |
| `Serializers.CaseVariantPassesSignUp` | app/Auth/serializers.py:34-35 | an upper-case variant of a stored e-mail passes sign-up and then collides with it after lower-casing |
| `Serializers.LoginFieldErrors` | app/Auth/serializers.py:64-66 | the login request fails on a malformed e-mail or a blank password, each reported |
| `Serializers.LoginValidate` | app/Auth/serializers.py:68-81 | field errors come first and are reported exactly when a field fails; then not found, not verified and invalid credentials, each exactly in its own case and in that order; success iff the user exists, is verified and the password matches |
| `Serializers.SaveBooking` | app/Auth/serializers.py:99-103 | the saved booking has the view's customer and status `pending`, and the client's service and schedule |
| `Serializers.ReadOnlyFieldsIgnored` | app/Auth/serializers.py:103 | client-sent `id`, `customer` and `status` have no effect on the saved booking |
| `Views.OtpFieldErrors` | app/Auth/serializers.py:58-60 | the OTP request fails on a malformed e-mail or a blank code, each reported |
| `Views.VerifyOtp` | app/Auth/views.py:37-51 | failing fields are reported exactly, as the serializer's errors; verification succeeds iff the fields are valid, the code matches and the user exists; mismatch gives Invalid OTP and a match for a missing user gives 404 |
| `Views.MarkVerified` | app/Auth/views.py:45-46 | the user's flag is set, the key set is unchanged and every other user is unchanged |
| `Views.MarkVerifiedOnlySetsFlag` | app/Auth/views.py:45-46 | with lower-case e-mails the re-save changes only the flag and keeps e-mails unique and lower-case |
| `Views.VerifyOtpRepeats` | app/Auth/otp_service.py:11-12 | after a successful verification the same code verifies the same user again |
| `Views.WrongCodeRefused` | app/Auth/views.py:42-50 | a wrong code for an issued e-mail is refused with Invalid OTP |
| `Views.Login` | app/Auth/views.py:57-84 | login succeeds iff serializer validation does, returning that user; every failure is the serializer's 400, the view's own 404/401 never occur |
| `Views.LoginRequiresVerifiedUser` | app/Auth/views.py:62-83 | tokens go only to an existing verified user with the right password; an unverified user is refused before the password is checked |
| `Views.VerifyThenLogin` | app/Auth/views.py:42-47 | once a user's code is accepted, that user logs in with the password it holds |
| `Views.CreateBooking` | app/Auth/views.py:100-104 | a booking is made iff the service exists and the caller has a customer profile; the customer is the caller and the status `pending` |
| `Views.CreateNeverChecksSchedule` | app/Auth/views.py:100-104 | a schedule that `clean` would refuse is booked all the same |
| `Views.CustomerBookings` | app/Auth/views.py:113-117 | the list is exactly the bookings whose customer is the caller, empty without a customer profile |
| `Views.CustomerListsDisjoint` | app/Auth/views.py:113-117 | a booking of one customer never shows in another customer's list |
| `Views.CreatedBookingListed` | app/Auth/views.py:100-117 | a booking just created is in its creator's list |
| `Views.ProviderBookings` | app/Auth/views.py:124-130 | the list is exactly the bookings whose service the caller provides, empty without a provider profile |
| `Views.UpdateStatus` | app/Auth/views.py:136-157 | unknown id gives 404 first, then a non-owner 403, then an unknown status 400; otherwise only the status is replaced by the requested one |
| `Views.UpdatableIffListed` | app/Auth/views.py:124-155 | a provider can update a booking iff it is in that provider's list |
| `Views.AnyStatusFromAnyStatus` | app/Auth/views.py:150-155 | the owner can write any of the four statuses whatever the current one |
| `Views.ForbiddenWhateverStatus` | app/Auth/views.py:142-148 | a non-owner is refused whatever status is requested |
| `Views.CreateService` | app/Auth/views.py:162-165 | a service is created iff the caller is staff, the name has 1 to 100 characters, the description is non-blank, the price has at most ten digits with two after the point, and the provider exists; the 403 is given exactly to a non-staff caller, and the created service is the requested one |
| `Views.VerifyPayment` | app/Auth/views.py:207-226 | a missing field gives Invalid data; otherwise success iff `hmac(secret, order_id + "\|" + payment_id)` equals the signature |
| `Views.OnlyExpectedSignatureVerifies` | app/Auth/views.py:214-224 | for a complete request, only the expected signature verifies and every other one is a mismatch |
| `Backend.Store.ExactlyOneProfile` | app/Auth/models.py:99-105 | every stored user owns exactly one profile, a provider profile iff it is a provider |
| `Backend.Store.SaveNewUser` | app/Auth/models.py:61-67 | the first save stores the lower-cased e-mail under a fresh id and adds one profile, or changes nothing if that e-mail is stored |
| `Backend.Store.CreateUser` | app/Auth/models.py:19-26 | an empty e-mail is refused; otherwise the built user is saved with the lower-cased address, or refused by the unique column |
| `Backend.Store.CreateSuperuser` | app/Auth/models.py:28-37 | flag checks come first and change nothing on failure; a created superuser has staff and superuser set |
| `Backend.Store.Register` | app/Auth/views.py:24-31 | on a validation failure nothing is stored and no code issued; on success the user is saved and a six-digit code is issued under the saved, lower-cased e-mail |
| `Backend.Store.VerifyOtp` | app/Auth/views.py:37-51 | follows `Views.VerifyOtp`; on success only that user's verified flag changes, on failure nothing changes, and the code store is untouched |
| `Backend.Store.CreateBooking` | app/Auth/views.py:100-104 | follows `Views.CreateBooking`; on success the booking is added under a fresh id and nothing else changes |
| `Backend.Store.UpdateBookingStatus` | app/Auth/views.py:136-157 | follows `Views.UpdateStatus`; on success only that booking changes, on failure nothing does |
| `Backend.Store.CreateService` | app/Auth/views.py:162-165 | follows `Views.CreateService`; on success the service is added under a fresh id |

## Left out

- `create_order` (views.py:182-203): a network call to the payment gateway, and
  its amount conversion is floating-point.
- HMAC-SHA256 and hex digests: the digest is the parameter `hmac`.
- Password hashing: stood for by `Credential`, so hash collisions are not modelled.
- JWT token generation: a successful login returns the user id and e-mail only.
- `randint` randomness: a nondeterministic choice in the same range.
- The `print` of the code, the request-logging middleware (wall-clock timings),
  admin registration and URL routing.
- Authentication itself (`IsAuthenticated`, 401 for anonymous requests): a caller is a user id.
- `ServiceUpdateView` and `AvailableServicesListView`: generic update and list-all views with no logic of their own.
- Profile display fields, file and image storage, and timestamps.
- Models.FindByEmail: requires unique e-mails (the database's unique column), so `MultipleObjectsReturned` is not modelled.
- Serializers.IsEmailAddress: a simplified stand-in for Django's `EmailValidator` grammar (one '@', non-empty local part, a dotted domain, no spaces).
- Serializers.SignUpFieldErrors: the phone number is only required to be non-blank or null; `PhoneNumberField` parsing and normalisation are not modelled, and neither is a request that omits the key.
- Django REST framework's whitespace trimming of `CharField` and `EmailField` input is not modelled.
- Text.Lower: lower-cases ASCII letters only; Python's `str.lower()` also folds other scripts.
- Models.NormalizeEmail: does not model the `strip()` of surrounding whitespace.
- Request values that are not strings (JSON numbers, lists) are not modelled for the status PATCH or for `verify_payment`.
- Concurrency between OTP issue and verification: every operation runs alone.
