/** The request checks of app/Auth/serializers.py. Django REST framework first
    runs every field's own validators and reports all failing fields together;
    only when none fails does it call the serializer's `validate`, whose checks
    stop at the first failure. */
module Serializers {
  import opened Results
  import opened Text
  import opened Models

  /** `min_length=8` on `password` and `password2`. */
  const MinPasswordLength: nat := 8

  /** `max_length=128`, which `password` inherits from `AbstractBaseUser`. */
  const MaxPasswordLength: nat := 128

  /** `max_length=254`, the default of the model's `EmailField`. */
  const MaxEmailLength: nat := 254

  /** A simplified `EmailValidator`: no space, exactly one '@' with a non-empty
      local part before it, and a domain after it with a dot that is neither its
      first nor its last character. */
  predicate IsEmailAddress(s: string) {
    ' ' !in s &&
    match LastIndexOf(s, '@')
    case None => false
    case Some(i) => 0 < i && '@' !in s[..i] && IsDomain(s[i + 1..])
  }

  predicate IsDomain(d: string) {
    |d| >= 3 && '.' in d[1..|d| - 1]
  }

  // ---------------------------------------------------------------- sign-up

  /** The fields `SignUpserializer` accepts from the client. `password2` is
      write-only; `is_provider` and `is_verified` may be left out; a `None`
      phone number is a JSON `null`. */
  datatype SignUpRequest = SignUpRequest(
    email: string,
    phone: Option<string>,
    password: string,
    password2: string,
    isProvider: Option<bool>,
    isVerified: Option<bool>)

  datatype SignUpField = EmailField | PhoneField | PasswordField | Password2Field

  /** `InvalidFields` is the field-level 400; the next four are the four failing
      branches of `validate`; `MissingIsProvider` is the `KeyError` `create`
      raises when the client left `is_provider` out. `InvalidEmail` stands for
      whatever the format branch raises: its `except` names the REST framework's
      `ValidationError`, which Django's `EmailValidator` does not raise, so that
      branch would answer with the validator's own non-field message. */
  datatype SignUpError =
    | InvalidFields(fields: set<SignUpField>)
    | PasswordMismatch
    | InvalidEmail
    | EmailExists
    | PhoneExists
    | MissingIsProvider

  /** The field-level validators, including those `ModelSerializer` builds from
      the model: the e-mail is well formed, at most 254 characters and not
      already stored (the `UniqueValidator` of the unique column, an exact
      match); the phone number is not blank, though it may be null since the
      column is nullable; `password` has 8 to 128
      characters and `password2` at least 8. */
  function SignUpFieldErrors(users: map<UserId, User>, req: SignUpRequest): (fields: set<SignUpField>)
    ensures EmailField in fields <==>
              !IsEmailAddress(req.email) || |req.email| > MaxEmailLength || EmailTaken(users, req.email)
    ensures PhoneField in fields <==> req.phone == Some("")
    ensures PasswordField in fields <==>
              |req.password| < MinPasswordLength || |req.password| > MaxPasswordLength
    ensures Password2Field in fields <==> |req.password2| < MinPasswordLength
  {
    (if IsEmailAddress(req.email) && |req.email| <= MaxEmailLength && !EmailTaken(users, req.email)
     then {} else {EmailField})
    + (if req.phone != Some("") then {} else {PhoneField})
    + (if MinPasswordLength <= |req.password| <= MaxPasswordLength then {} else {PasswordField})
    + (if |req.password2| >= MinPasswordLength then {} else {Password2Field})
  }

  /** `SignUpserializer.validate`: passwords, e-mail format, duplicate e-mail
      (exact match), duplicate phone number, in that order. */
  function Validate(users: map<UserId, User>, req: SignUpRequest): (r: Outcome<SignUpError>)
    ensures r.Pass? <==> && req.password == req.password2
                         && IsEmailAddress(req.email)
                         && !EmailTaken(users, req.email)
                         && !PhoneTaken(users, req.phone)
    ensures r.Fail? ==> r.error in {PasswordMismatch, InvalidEmail, EmailExists, PhoneExists}
  {
    if req.password != req.password2 then Fail(PasswordMismatch)
    else if !IsEmailAddress(req.email) then Fail(InvalidEmail)
    else if EmailTaken(users, req.email) then Fail(EmailExists)
    else if PhoneTaken(users, req.phone) then Fail(PhoneExists)
    else Pass
  }

  /** The checks of `validate` as data: each is a condition that must hold and
      the error reported when it does not, listed in the order of the source. */
  function SignUpChecks(users: map<UserId, User>, req: SignUpRequest): seq<(bool, SignUpError)> {
    [ (req.password == req.password2, PasswordMismatch),
      (IsEmailAddress(req.email), InvalidEmail),
      (!EmailTaken(users, req.email), EmailExists),
      (!PhoneTaken(users, req.phone), PhoneExists) ]
  }

  /** The error of the first check in the list that fails. */
  function FirstFailure<E>(checks: seq<(bool, E)>): (r: Outcome<E>)
  {
    if checks == [] then Pass
    else if !checks[0].0 then Fail(checks[0].1)
    else FirstFailure(checks[1..])
  }

  /** `FirstFailure` reports check k exactly when check k fails and every check
      before it holds; it passes exactly when every check holds. */
  lemma {:induction false} FirstFailureIsFirst<E>(checks: seq<(bool, E)>)
    ensures FirstFailure(checks).Pass? <==> forall j :: 0 <= j < |checks| ==> checks[j].0
    ensures FirstFailure(checks).Fail? ==>
              exists k :: && 0 <= k < |checks| && !checks[k].0
                          && FirstFailure(checks).error == checks[k].1
                          && forall j :: 0 <= j < k ==> checks[j].0
  {
    if checks != [] && checks[0].0 {
      FirstFailureIsFirst(checks[1..]);
      var rest := checks[1..];
      assert forall j :: 1 <= j < |checks| ==> checks[j] == rest[j - 1];
      if FirstFailure(rest).Fail? {
        var k :| && 0 <= k < |rest| && !rest[k].0
                 && FirstFailure(rest).error == rest[k].1
                 && forall j :: 0 <= j < k ==> rest[j].0;
        assert forall j :: 0 <= j < k + 1 ==> checks[j].0 by {
          forall j | 0 <= j < k + 1 ensures checks[j].0 {
            if j > 0 { assert checks[j] == rest[j - 1]; }
          }
        }
      }
    }
  }

  /** `validate` reports the first failing check, in the order of the source. */
  lemma ValidateReportsFirstFailure(users: map<UserId, User>, req: SignUpRequest)
    ensures Validate(users, req) == FirstFailure(SignUpChecks(users, req))
  {
    var c := SignUpChecks(users, req);
    assert c[1..][1..][1..][1..] == [];
    assert FirstFailure(c[3..]) == if c[3].0 then Pass else Fail(c[3].1);
    assert FirstFailure(c[2..]) == if c[2].0 then FirstFailure(c[3..]) else Fail(c[2].1);
    assert FirstFailure(c[1..]) == if c[1].0 then FirstFailure(c[2..]) else Fail(c[1].1);
  }

  /** An e-mail already stored, spelled exactly as stored, never signs up: once the
      passwords match and the address is well formed it is reported as a
      duplicate whatever the phone number. */
  lemma DuplicateEmailRejected(users: map<UserId, User>, req: SignUpRequest)
    requires EmailTaken(users, req.email)
    ensures Validate(users, req).Fail?
    ensures req.password == req.password2 && IsEmailAddress(req.email) ==>
              Validate(users, req) == Fail(EmailExists)
  {
  }

  /** `serializer.is_valid()`: the field validators, then `validate`. */
  function SignUpValidate(users: map<UserId, User>, req: SignUpRequest): (r: Outcome<SignUpError>)
    ensures r.Pass? <==> SignUpFieldErrors(users, req) == {} && Validate(users, req).Pass?
    ensures SignUpFieldErrors(users, req) == {} ==> r == Validate(users, req)
    ensures SignUpFieldErrors(users, req) != {} ==> r == Fail(InvalidFields(SignUpFieldErrors(users, req)))
  {
    var fields := SignUpFieldErrors(users, req);
    if fields != {} then Fail(InvalidFields(fields)) else Validate(users, req)
  }

  /** A null phone number passes the field stage, and the duplicate-phone check
      of `validate` then looks for a stored user without a phone number: the
      sign-up is refused exactly when one exists. */
  lemma NullPhoneRefusedIffNullStored(users: map<UserId, User>, req: SignUpRequest)
    requires req.phone.None?
    requires SignUpFieldErrors(users, req) == {} && req.password == req.password2
    ensures SignUpValidate(users, req).Pass? <==> forall id :: id in users ==> users[id].phone.Some?
    ensures SignUpValidate(users, req).Fail? ==> SignUpValidate(users, req).error == PhoneExists
  {
  }

  /** The field-level `EmailField` already refuses a malformed address, so the
      format check inside `validate` never fires through `is_valid`. */
  lemma ValidateEmailCheckUnreachable(users: map<UserId, User>, req: SignUpRequest)
    ensures SignUpValidate(users, req) != Fail(InvalidEmail)
  {
  }

  /** The `UniqueValidator` on `email` runs first, so an exactly stored address
      is a field error on `email` whatever the passwords, and the duplicate
      branch inside `validate` never fires through `is_valid`. */
  lemma DuplicateEmailIsFieldError(users: map<UserId, User>, req: SignUpRequest)
    ensures SignUpValidate(users, req) != Fail(EmailExists)
    ensures EmailTaken(users, req.email) ==>
              && SignUpValidate(users, req).Fail?
              && SignUpValidate(users, req).error.InvalidFields?
              && EmailField in SignUpValidate(users, req).error.fields
  {
  }

  /** `SignUpserializer.create`: `password2` is dropped, the password is stored
      only through `set_password`, `is_provider` is read with `[...]` (a
      `KeyError` when absent) and `is_verified` with `.get(..., False)`. */
  function SignUpCreate(req: SignUpRequest): (r: Result<User, SignUpError>)
    ensures r.Err? <==> req.isProvider.None?
    ensures r.Err? ==> r.error == MissingIsProvider
    ensures r.Ok? ==> && r.value.email == req.email && r.value.phone == req.phone
                      && (forall p :: CheckPassword(r.value.credential, p) <==> p == req.password)
                      && r.value.isProvider == req.isProvider.value
                      && r.value.isVerified == (req.isVerified == Some(true))
                      && !r.value.isStaff && !r.value.isSuperuser
  {
    match req.isProvider
    case None => Err(MissingIsProvider)
    case Some(provider) =>
      Ok(User(req.email, req.phone, SetPassword(Some(req.password)), provider,
              req.isVerified.GetOr(false), false, false))
  }

  /** Validation followed by `create`: the user that `serializer.save()` is about
      to save. */
  function SignUp(users: map<UserId, User>, req: SignUpRequest): (r: Result<User, SignUpError>)
    ensures r.Ok? <==> SignUpValidate(users, req).Pass? && req.isProvider.Some?
    ensures SignUpValidate(users, req).Fail? ==> r == Err(SignUpValidate(users, req).error)
    ensures r.Ok? ==> SignUpCreate(req) == r
    ensures SignUpValidate(users, req).Pass? ==> r == SignUpCreate(req)
  {
    match SignUpValidate(users, req)
    case Fail(e) => Err(e)
    case Pass => SignUpCreate(req)
  }

  /** `is_verified` is a writable sign-up field: a client can register an account
      that is verified before any code was checked. */
  lemma SignUpCanSetVerified(users: map<UserId, User>, req: SignUpRequest)
    requires SignUp(users, req).Ok? && req.isVerified == Some(true)
    ensures SignUp(users, req).value.isVerified
  {
  }

  /** The duplicate check compares the raw address while `save` stores it
      lower-cased: an upper-case variant of a stored address passes every check
      and then collides with the stored one. */
  lemma CaseVariantPassesSignUp(users: map<UserId, User>, req: SignUpRequest)
    requires SignUpFieldErrors(users, req) == {} && req.password == req.password2
    requires req.isProvider.Some?
    requires !PhoneTaken(users, req.phone)
    requires EmailTaken(users, Lower(req.email))
    ensures SignUp(users, req).Ok?
    ensures EmailTaken(users, Lower(SignUp(users, req).value.email))
  {
  }

  // ------------------------------------------------------------------ login

  datatype LoginField = LoginEmailField | LoginPasswordField

  datatype LoginError =
    | InvalidLoginFields(fields: set<LoginField>)
    | UserNotFound
    | UserNotVerified
    | InvalidCredentials

  /** `LoginSerializer`'s fields: a well-formed e-mail and a non-blank password. */
  function LoginFieldErrors(email: string, password: string): (fields: set<LoginField>)
    ensures LoginEmailField in fields <==> !IsEmailAddress(email)
    ensures LoginPasswordField in fields <==> password == ""
  {
    (if IsEmailAddress(email) then {} else {LoginEmailField})
    + (if password != "" then {} else {LoginPasswordField})
  }

  /** `LoginSerializer`'s fields and its `validate`: the user is looked up by the
      exact e-mail, then must be verified, then the password must match; on
      success the user is attached to the validated data. */
  function LoginValidate(users: map<UserId, User>, email: string, password: string): (r: Result<UserId, LoginError>)
    requires EmailsUnique(users)
    ensures LoginFieldErrors(email, password) != {} <==>
              r == Err(InvalidLoginFields(LoginFieldErrors(email, password)))
    ensures r.Err? && r.error.InvalidLoginFields? ==> r.error.fields != {}
    ensures r.Ok? <==> && IsEmailAddress(email) && password != ""
                       && exists id :: && id in users && users[id].email == email
                                       && users[id].isVerified
                                       && CheckPassword(users[id].credential, password)
    ensures r.Ok? ==> && r.value in users && users[r.value].email == email
                      && users[r.value].isVerified
                      && CheckPassword(users[r.value].credential, password)
    ensures r == Err(UserNotFound) <==>
              IsEmailAddress(email) && password != "" && !EmailTaken(users, email)
    ensures r == Err(UserNotVerified) <==>
              && IsEmailAddress(email) && password != ""
              && exists id :: id in users && users[id].email == email && !users[id].isVerified
    ensures r == Err(InvalidCredentials) <==>
              && IsEmailAddress(email) && password != ""
              && exists id :: && id in users && users[id].email == email && users[id].isVerified
                              && !CheckPassword(users[id].credential, password)
  {
    var fields := LoginFieldErrors(email, password);
    if fields != {} then Err(InvalidLoginFields(fields))
    else match FindByEmail(users, email)
      case None => Err(UserNotFound)
      case Some(id) =>
        if !users[id].isVerified then Err(UserNotVerified)
        else if !CheckPassword(users[id].credential, password) then Err(InvalidCredentials)
        else Ok(id)
  }

  // --------------------------------------------------------------- bookings

  /** What a client may send to `BookingSerializer`. `id`, `customer` and
      `status` are read-only: accepted in the request and ignored. */
  datatype BookingRequest = BookingRequest(
    service: ServiceId,
    schedule: int,
    id: Option<BookingId>,
    customer: Option<UserId>,
    status: Option<string>)

  /** `serializer.save(customer=...)`: the booking takes the customer the view
      supplies and the default status, never the client's. */
  function SaveBooking(req: BookingRequest, customer: UserId): (b: Booking)
    ensures b.customer == customer && b.status == Pending
    ensures b.service == req.service && b.schedule == req.schedule
  {
    Booking(customer, req.service, req.schedule, DefaultStatus)
  }

  /** The read-only fields have no effect on the booking that is saved. */
  lemma ReadOnlyFieldsIgnored(a: BookingRequest, b: BookingRequest, customer: UserId)
    requires a.service == b.service && a.schedule == b.schedule
    ensures SaveBooking(a, customer) == SaveBooking(b, customer)
  {
  }
}
