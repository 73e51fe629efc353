/** What the views of app/Auth/views.py decide, as functions of the tables they
    read. The writes they then perform are the methods of `Backend.Store`, each
    proved to follow the decision made here. */
module Views {
  import opened Results
  import opened Text
  import opened OtpService
  import opened Models
  import opened Serializers

  // -------------------------------------------------------------- verify_otp

  datatype OtpField = OtpEmailField | OtpCodeField

  /** 400 for the serializer's fields, 400 "Invalid OTP", 404 "User does not exist". */
  datatype OtpError = InvalidOtpFields(fields: set<OtpField>) | InvalidOtp | UserDoesNotExist

  /** `OTPVerifySerializer`'s fields: a well-formed e-mail and a non-blank code. */
  function OtpFieldErrors(email: string, otp: string): (fields: set<OtpField>)
    ensures OtpEmailField in fields <==> !IsEmailAddress(email)
    ensures OtpCodeField in fields <==> otp == ""
  {
    (if IsEmailAddress(email) then {} else {OtpEmailField})
    + (if otp != "" then {} else {OtpCodeField})
  }

  /** `verify_otp`: field checks, then the code, then the user lookup. On success
      the user to mark as verified. */
  function VerifyOtp(otps: map<string, string>, users: map<UserId, User>, email: string, otp: string): (r: Result<UserId, OtpError>)
    requires EmailsUnique(users)
    ensures OtpFieldErrors(email, otp) != {} <==> r == Err(InvalidOtpFields(OtpFieldErrors(email, otp)))
    ensures r.Err? && r.error.InvalidOtpFields? ==> r.error.fields != {}
    ensures r.Ok? <==> && IsEmailAddress(email) && otp != ""
                       && email in otps && otps[email] == otp
                       && EmailTaken(users, email)
    ensures r.Ok? ==> r.value in users && users[r.value].email == email
    ensures r == Err(InvalidOtp) <==> IsEmailAddress(email) && otp != "" && !VerifyMockOtp(otps, email, otp)
    ensures r == Err(UserDoesNotExist) <==>
              IsEmailAddress(email) && otp != "" && VerifyMockOtp(otps, email, otp) && !EmailTaken(users, email)
  {
    var fields := OtpFieldErrors(email, otp);
    if fields != {} then Err(InvalidOtpFields(fields))
    else if !VerifyMockOtp(otps, email, otp) then Err(InvalidOtp)
    else match FindByEmail(users, email)
      case None => Err(UserDoesNotExist)
      case Some(id) => Ok(id)
  }

  /** `user.is_verified = True; user.save()`: the flag is set and `save`
      lower-cases the e-mail again. */
  function MarkVerified(users: map<UserId, User>, id: UserId): (r: map<UserId, User>)
    requires id in users
    ensures r.Keys == users.Keys
    ensures r[id].isVerified
    ensures forall other :: other in users && other != id ==> r[other] == users[other]
  {
    users[id := users[id].(isVerified := true, email := Lower(users[id].email))]
  }

  /** While every stored e-mail is lower-case, marking a user verified changes
      nothing but that user's flag, and the table keeps its invariants. */
  lemma {:induction false} MarkVerifiedOnlySetsFlag(users: map<UserId, User>, id: UserId)
    requires id in users && EmailsLower(users)
    ensures MarkVerified(users, id) == users[id := users[id].(isVerified := true)]
    ensures EmailsUnique(users) ==> EmailsUnique(MarkVerified(users, id))
    ensures EmailsLower(MarkVerified(users, id))
  {
    LowerFixesLower(users[id].email);
  }

  /** The code is not consumed: after a successful verification the same code
      verifies the same user again. */
  lemma VerifyOtpRepeats(otps: map<string, string>, users: map<UserId, User>,
                          email: string, otp: string)
    requires EmailsUnique(users) && EmailsLower(users)
    requires VerifyOtp(otps, users, email, otp).Ok?
    ensures EmailsUnique(MarkVerified(users, VerifyOtp(otps, users, email, otp).value))
    ensures var id := VerifyOtp(otps, users, email, otp).value;
            VerifyOtp(otps, MarkVerified(users, id), email, otp) == Ok(id)
  {
  }

  /** A wrong code is refused with "Invalid OTP" and, since this view writes
      nothing on that path, the user stays unverified. */
  lemma WrongCodeRefused(otps: map<string, string>, users: map<UserId, User>, email: string, otp: string)
    requires EmailsUnique(users) && IsEmailAddress(email) && otp != ""
    requires email in otps && otps[email] != otp
    ensures VerifyOtp(otps, users, email, otp) == Err(InvalidOtp)
  {
  }

  // ------------------------------------------------------------------ login

  /** `LoginRejected` is the serializer's 400. The view's own 404 "User not
      found", 401 "User not verified" and 401 "Invalid credentials" follow it in
      the source. */
  datatype LoginFailure = LoginRejected(error: LoginError) | NotFound | NotVerified | BadCredentials

  /** What a successful login returns besides the tokens. */
  datatype LoginSummary = LoginSummary(id: UserId, email: string)

  /** `login`: `is_valid()` runs `LoginSerializer.validate`, then the view looks
      the user up again and repeats the verified and password checks. */
  function Login(users: map<UserId, User>, email: string, password: string): (r: Result<LoginSummary, LoginFailure>)
    requires EmailsUnique(users)
    ensures r.Ok? <==> LoginValidate(users, email, password).Ok?
    ensures r.Ok? ==> r.value == LoginSummary(LoginValidate(users, email, password).value, email)
    ensures r.Err? ==> r.error == LoginRejected(LoginValidate(users, email, password).error)
  {
    match LoginValidate(users, email, password)
    case Err(e) => Err(LoginRejected(e))
    case Ok(_) =>
      match FindByEmail(users, email)
      case None => Err(NotFound)
      case Some(id) =>
        if !users[id].isVerified then Err(NotVerified)
        else if CheckPassword(users[id].credential, password) then Ok(LoginSummary(id, users[id].email))
        else Err(BadCredentials)
  }

  /** Tokens are issued only to an existing, verified user whose password
      matches; the unverified check comes before the password check. */
  lemma LoginRequiresVerifiedUser(users: map<UserId, User>, email: string, password: string)
    requires EmailsUnique(users)
    ensures Login(users, email, password).Ok? ==>
              var id := Login(users, email, password).value.id;
              id in users && users[id].email == email && users[id].isVerified
              && CheckPassword(users[id].credential, password)
    ensures (exists id :: id in users && users[id].email == email && !users[id].isVerified)
              && IsEmailAddress(email) && password != "" ==>
              Login(users, email, password) == Err(LoginRejected(UserNotVerified))
  {
  }

  /** End to end: once `verify_otp` has accepted a user's code, that user logs in
      with the password given at sign-up. */
  lemma VerifyThenLogin(otps: map<string, string>, users: map<UserId, User>,
                         email: string, otp: string, password: string)
    requires EmailsUnique(users) && EmailsLower(users)
    requires VerifyOtp(otps, users, email, otp).Ok?
    requires password != ""
    requires CheckPassword(users[VerifyOtp(otps, users, email, otp).value].credential, password)
    ensures EmailsUnique(MarkVerified(users, VerifyOtp(otps, users, email, otp).value))
    ensures var id := VerifyOtp(otps, users, email, otp).value;
            Login(MarkVerified(users, id), email, password) == Ok(LoginSummary(id, email))
  {
  }

  // --------------------------------------------------------------- bookings

  /** 400 for an unknown service (the serializer runs first), 403 for a caller
      without a customer profile. */
  datatype BookingError = UnknownService | NotCustomer

  /** `BookingCreateView`: `is_valid()` then `perform_create`. */
  function CreateBooking(services: map<ServiceId, Service>, customers: set<UserId>,
                         caller: UserId, req: BookingRequest): (r: Result<Booking, BookingError>)
    ensures req.service !in services ==> r == Err(UnknownService)
    ensures req.service in services && caller !in customers ==> r == Err(NotCustomer)
    ensures r.Ok? <==> req.service in services && caller in customers
    ensures r.Ok? ==> && r.value.customer == caller && r.value.status == Pending
                      && r.value.service == req.service && r.value.schedule == req.schedule
  {
    if req.service !in services then Err(UnknownService)
    else if caller !in customers then Err(NotCustomer)
    else Ok(SaveBooking(req, caller))
  }

  /** Nothing on the create path calls `Booking.clean`: a schedule that `clean`
      would refuse is booked all the same. */
  lemma CreateNeverChecksSchedule(services: map<ServiceId, Service>, customers: set<UserId>,
                                  caller: UserId, req: BookingRequest, now: int)
    requires req.service in services && caller in customers
    requires CleanSchedule(req.schedule, now).Fail?
    ensures CreateBooking(services, customers, caller, req).Ok?
  {
  }

  /** `CustomerBookingListView.get_queryset` */
  function CustomerBookings(bookings: map<BookingId, Booking>, customers: set<UserId>,
                            caller: UserId): (r: map<BookingId, Booking>)
    ensures forall id :: id in r <==> caller in customers && id in bookings && bookings[id].customer == caller
    ensures forall id :: id in r ==> r[id] == bookings[id]
  {
    if caller in customers then map id | id in bookings && bookings[id].customer == caller :: bookings[id]
    else map[]
  }

  /** A booking made by one customer never shows in another customer's list. */
  lemma CustomerListsDisjoint(bookings: map<BookingId, Booking>, customers: set<UserId>, x: UserId, y: UserId)
    requires x != y
    ensures CustomerBookings(bookings, customers, x).Keys !! CustomerBookings(bookings, customers, y).Keys
  {
  }

  /** A booking just created under a fresh id is in its creator's list. */
  lemma CreatedBookingListed(bookings: map<BookingId, Booking>, services: map<ServiceId, Service>,
                             customers: set<UserId>, caller: UserId, req: BookingRequest, id: BookingId)
    requires CreateBooking(services, customers, caller, req).Ok?
    ensures var b := CreateBooking(services, customers, caller, req).value;
            id in CustomerBookings(bookings[id := b], customers, caller)
  {
  }

  /** The caller owns the service that booking `pk` is for. */
  predicate OwnsBooking(bookings: map<BookingId, Booking>, services: map<ServiceId, Service>,
                        providers: set<UserId>, caller: UserId, pk: BookingId)
    requires pk in bookings
  {
    caller in providers && bookings[pk].service in services && services[bookings[pk].service].provider == caller
  }

  /** `ProviderBookingListView.get_queryset` */
  function ProviderBookings(bookings: map<BookingId, Booking>, services: map<ServiceId, Service>,
                            providers: set<UserId>, caller: UserId): (r: map<BookingId, Booking>)
    ensures forall id :: id in r <==> && caller in providers && id in bookings
                                      && bookings[id].service in services
                                      && services[bookings[id].service].provider == caller
    ensures forall id :: id in r ==> r[id] == bookings[id]
  {
    if caller !in providers then map[]
    else map id | id in bookings && bookings[id].service in services
                  && services[bookings[id].service].provider == caller :: bookings[id]
  }

  /** 404, 403, 400 "Invalid status". */
  datatype PatchError = BookingNotFound | Forbidden | InvalidStatus

  /** `BookingStatusUpdateView.patch`: the booking is looked up, then the caller's
      ownership is checked, then the status; on success the updated booking. */
  function UpdateStatus(bookings: map<BookingId, Booking>, services: map<ServiceId, Service>,
                        providers: set<UserId>, caller: UserId, pk: BookingId,
                        status: Option<string>): (r: Result<Booking, PatchError>)
    ensures pk !in bookings ==> r == Err(BookingNotFound)
    ensures pk in bookings && !OwnsBooking(bookings, services, providers, caller, pk) ==> r == Err(Forbidden)
    ensures (pk in bookings && OwnsBooking(bookings, services, providers, caller, pk)
             && ParseStatus(status).None?) ==> r == Err(InvalidStatus)
    ensures r.Ok? <==> pk in bookings && OwnsBooking(bookings, services, providers, caller, pk)
                       && ParseStatus(status).Some?
    ensures r.Ok? ==> r.value == bookings[pk].(status := ParseStatus(status).value)
  {
    if pk !in bookings then Err(BookingNotFound)
    else if caller !in providers then Err(Forbidden)
    else if bookings[pk].service !in services || services[bookings[pk].service].provider != caller then Err(Forbidden)
    else match ParseStatus(status)
      case None => Err(InvalidStatus)
      case Some(s) => Ok(bookings[pk].(status := s))
  }

  /** A provider may update exactly the bookings in their own list. */
  lemma UpdatableIffListed(bookings: map<BookingId, Booking>, services: map<ServiceId, Service>,
                           providers: set<UserId>, caller: UserId, pk: BookingId, s: Status)
    ensures (UpdateStatus(bookings, services, providers, caller, pk, Some(StatusValue(s))).Ok?
             <==> pk in ProviderBookings(bookings, services, providers, caller))
  {
    ParseStatusValue(s);
  }

  /** There is no transition check: the owning provider can write any of the four
      statuses whatever the booking's current one, a completed or cancelled
      booking included. */
  lemma AnyStatusFromAnyStatus(bookings: map<BookingId, Booking>, services: map<ServiceId, Service>,
                               providers: set<UserId>, caller: UserId, pk: BookingId, s: Status)
    requires pk in bookings && OwnsBooking(bookings, services, providers, caller, pk)
    ensures UpdateStatus(bookings, services, providers, caller, pk, Some(StatusValue(s)))
              == Ok(bookings[pk].(status := s))
  {
    ParseStatusValue(s);
  }

  /** A caller who does not own the booking is refused whatever status is asked for. */
  lemma ForbiddenWhateverStatus(bookings: map<BookingId, Booking>, services: map<ServiceId, Service>,
                                providers: set<UserId>, caller: UserId, pk: BookingId,
                                a: Option<string>, b: Option<string>)
    requires pk in bookings && !OwnsBooking(bookings, services, providers, caller, pk)
    ensures UpdateStatus(bookings, services, providers, caller, pk, a)
              == UpdateStatus(bookings, services, providers, caller, pk, b) == Err(Forbidden)
  {
  }

  // ---------------------------------------------------------- admin services

  /** What `ServiceSerializerAdmin` accepts; the price in minor units. */
  datatype ServiceRequest = ServiceRequest(name: string, description: string, price: int, provider: UserId)

  /** 403 from `IsAdminUser`, 400 from the serializer. */
  datatype ServiceError = NotAdmin | InvalidService

  /** `max_digits=10, decimal_places=2`: at most ten digits counting the two
      after the point. */
  const PriceBound: int := 10_000_000_000

  /** `ServiceCreateView`: staff only, then the model's field constraints and an
      existing provider profile. */
  function CreateService(users: map<UserId, User>, providers: set<UserId>,
                         caller: UserId, req: ServiceRequest): (r: Result<Service, ServiceError>)
    ensures r.Ok? ==> caller in users && users[caller].isStaff
    ensures !(caller in users && users[caller].isStaff) <==> r == Err(NotAdmin)
    ensures r.Ok? <==> && caller in users && users[caller].isStaff
                       && 0 < |req.name| <= 100 && req.description != ""
                       && -PriceBound < req.price < PriceBound && req.provider in providers
    ensures r.Ok? ==> r.value.provider in providers && 0 < |r.value.name| <= 100
    ensures r.Ok? ==> r.value == Service(req.name, req.description, req.price, req.provider)
  {
    if !(caller in users && users[caller].isStaff) then Err(NotAdmin)
    else if !(0 < |req.name| <= 100 && req.description != ""
              && -PriceBound < req.price < PriceBound && req.provider in providers) then Err(InvalidService)
    else Ok(Service(req.name, req.description, req.price, req.provider))
  }

  // ---------------------------------------------------------------- payment

  const OrderIdKey := "razorpay_order_id"
  const PaymentIdKey := "razorpay_payment_id"
  const SignatureKey := "razorpay_signature"

  /** 200 "Payment verified successfully", 400 "Signature mismatch", 400 "Invalid data". */
  datatype PaymentResult = PaymentVerified | SignatureMismatch | InvalidData

  /** The message that is signed: `f"{order_id}|{payment_id}"`. */
  function SignedBody(orderId: string, paymentId: string): string {
    orderId + "|" + paymentId
  }

  /** `verify_payment`, over the HMAC-SHA256 hex digest `hmac(secret, body)`. */
  function VerifyPayment(hmac: (string, string) -> string, secret: string, data: map<string, string>): (r: PaymentResult)
    ensures r == InvalidData <==> !(OrderIdKey in data && PaymentIdKey in data && SignatureKey in data)
    ensures r == PaymentVerified <==>
              && OrderIdKey in data && PaymentIdKey in data && SignatureKey in data
              && hmac(secret, SignedBody(data[OrderIdKey], data[PaymentIdKey])) == data[SignatureKey]
  {
    if OrderIdKey !in data || PaymentIdKey !in data || SignatureKey !in data then InvalidData
    else
      var expected := hmac(secret, SignedBody(data[OrderIdKey], data[PaymentIdKey]));
      if expected == data[SignatureKey] then PaymentVerified else SignatureMismatch
  }

  /** For a complete request, the expected signature verifies and every other
      signature is a mismatch. */
  lemma OnlyExpectedSignatureVerifies(hmac: (string, string) -> string, secret: string,
                                      orderId: string, paymentId: string, signature: string)
    ensures var data := map[OrderIdKey := orderId, PaymentIdKey := paymentId, SignatureKey := signature];
            VerifyPayment(hmac, secret, data)
              == if signature == hmac(secret, SignedBody(orderId, paymentId)) then PaymentVerified
                 else SignatureMismatch
  {
  }
}
