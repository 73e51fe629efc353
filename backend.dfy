/** The state every view of the marketplace reads and writes: the `CustomUser`,
    profile, `Service` and `Booking` tables and the module-global `OTP_STORE`,
    held by one object whose methods are the source's writes. */
module Backend {
  import opened Results
  import opened Text
  import OtpService
  import opened Models
  import opened Serializers
  import Views

  /** 400 from the serializer (or the 500 of its `create`), or the unique e-mail
      column refusing the lower-cased address. */
  datatype RegisterError = SignUpRejected(error: SignUpError) | DuplicateOnSave

  /** Ids are fresh, e-mails unique and lower-case, every user owns exactly one
      profile, of the kind `is_provider` names, and foreign keys resolve. */
  ghost predicate Tables(users: map<UserId, User>, customers: set<UserId>, providers: set<UserId>,
                         services: map<ServiceId, Service>, bookings: map<BookingId, Booking>, nextId: nat)
  {
    && (forall id :: id in users ==> id < nextId)
    && (forall id :: id in services ==> id < nextId)
    && (forall id :: id in bookings ==> id < nextId)
    && EmailsUnique(users)
    && EmailsLower(users)
    && customers !! providers
    && customers + providers == users.Keys
    && (forall id :: id in users ==> (id in providers <==> users[id].isProvider))
    && (forall s :: s in services ==> services[s].provider in providers)
    && (forall b :: b in bookings ==> bookings[b].customer in customers && bookings[b].service in services)
  }

  /** Saving a user whose lower-case e-mail is not yet stored under the next id,
      with the one profile `create_profile` gives it, keeps the tables valid. */
  lemma AddUserKeepsTables(users: map<UserId, User>, customers: set<UserId>, providers: set<UserId>,
                           services: map<ServiceId, Service>, bookings: map<BookingId, Booking>,
                           nextId: nat, u: User)
    requires Tables(users, customers, providers, services, bookings, nextId)
    requires IsLower(u.email) && !EmailTaken(users, u.email)
    ensures Tables(users[nextId := u],
                   if u.isProvider then customers else customers + {nextId},
                   if u.isProvider then providers + {nextId} else providers,
                   services, bookings, nextId + 1)
  {
    InsertKeepsEmails(users, nextId, u);
  }

  /** Rewriting a stored booking's status keeps the tables valid. */
  lemma SetStatusKeepsTables(users: map<UserId, User>, customers: set<UserId>, providers: set<UserId>,
                             services: map<ServiceId, Service>, bookings: map<BookingId, Booking>,
                             nextId: nat, pk: BookingId, s: Status)
    requires Tables(users, customers, providers, services, bookings, nextId)
    requires pk in bookings
    ensures Tables(users, customers, providers, services, bookings[pk := bookings[pk].(status := s)], nextId)
  {
  }

  class Store {
    /** `CustomUser` rows by id. */
    var users: map<UserId, User>
    /** Users that own a `CustomerProfile`, and users that own a `ProviderProfile`. */
    var customers: set<UserId>
    var providers: set<UserId>
    var services: map<ServiceId, Service>
    var bookings: map<BookingId, Booking>
    /** `OTP_STORE` */
    var otps: map<string, string>
    /** Stands for `uuid4()`: every id handed out so far is below it. */
    var nextId: nat

    /** The invariants the database and the `post_save` hook keep together. */
    ghost predicate Valid()
      reads this
    {
      Tables(users, customers, providers, services, bookings, nextId)
    }

    constructor ()
      ensures Valid()
      ensures users == map[] && customers == {} && providers == {}
      ensures services == map[] && bookings == map[] && otps == map[]
    {
      users, customers, providers := map[], {}, {};
      services, bookings, otps := map[], map[], map[];
      nextId := 0;
    }

    /** Every user owns exactly one profile: a provider profile if and only if
        the user is a provider. */
    lemma ExactlyOneProfile(id: UserId)
      requires Valid() && id in users
      ensures (id in customers) != (id in providers)
      ensures id in providers <==> users[id].isProvider
    {
    }

    /** `send_mock_otp`: a random code in [100000, 999999] is stored under the
        e-mail, replacing the earlier one, and returned. */
    method SendMockOtp(email: string) returns (code: string)
      modifies this`otps
      ensures OtpService.IsOtpCode(code)
      ensures otps == OtpService.Issue(old(otps), email, code)
    {
      assert OtpService.OtpMin <= OtpService.OtpMin <= OtpService.OtpMax;
      var n: nat :| OtpService.OtpMin <= n <= OtpService.OtpMax;
      code := OtpService.OtpCode(n);
      otps := otps[email := code];
    }

    /** A new user row `u` was saved under `id` and `create_profile` gave it its
        one profile; nothing else changed. */
    twostate predicate UserSaved(id: UserId, u: User)
      reads this
    {
      && id == old(nextId) && nextId == old(nextId) + 1
      && users == old(users)[id := u]
      && (u.isProvider ==> providers == old(providers) + {id} && customers == old(customers))
      && (!u.isProvider ==> customers == old(customers) + {id} && providers == old(providers))
      && services == old(services) && bookings == old(bookings)
    }

    /** The first `save()` of a new user: the e-mail is lower-cased, the unique
        column refuses an address already stored, and the `post_save` receiver
        creates the profile. */
    method SaveNewUser(u: User) returns (id: Option<UserId>)
      requires Valid()
      modifies this`users, this`customers, this`providers, this`nextId
      ensures Valid()
      ensures EmailTaken(old(users), Lower(u.email)) ==> id.None? && unchanged(this)
      ensures !EmailTaken(old(users), Lower(u.email)) ==>
                id.Some? && UserSaved(id.value, u.(email := Lower(u.email)))
    {
      var saved := u.(email := Lower(u.email));
      if EmailTaken(users, saved.email) {
        return None;
      }
      LowerIsLower(u.email);
      AddUserKeepsTables(users, customers, providers, services, bookings, nextId, saved);
      var newId := nextId;
      var profile := CreateProfile(true, saved.isProvider);
      if profile == Some(ProviderProfile) {
        users, providers, nextId := users[newId := saved], providers + {newId}, nextId + 1;
      } else {
        users, customers, nextId := users[newId := saved], customers + {newId}, nextId + 1;
      }
      id := Some(newId);
    }

    /** What `create_user` promises for the given arguments. */
    twostate predicate CreatedUser(new r: Result<UserId, ManagerError>, email: string, phone: Option<string>,
                                   password: Option<string>, extra: ExtraFields)
      reads this
    {
      && (email == "" ==> r == Err(EmailRequired) && unchanged(this))
      && (email != "" && EmailTaken(old(users), Lower(email)) ==> r == Err(ManagerError.EmailConflict) && unchanged(this))
      && (email != "" && !EmailTaken(old(users), Lower(email)) ==>
            r.Ok? && UserSaved(r.value, ManagerUser(email, phone, password, extra).(email := Lower(email))))
    }

    /** `CustomUserManager.create_user` */
    method CreateUser(email: string, phone: Option<string>, password: Option<string>, extra: ExtraFields)
      returns (r: Result<UserId, ManagerError>)
      requires Valid()
      modifies this`users, this`customers, this`providers, this`nextId
      ensures Valid()
      ensures CreatedUser(r, email, phone, password, extra)
    {
      if email == "" {
        return Err(EmailRequired);
      }
      var u := ManagerUser(email, phone, password, extra);
      var id := SaveNewUser(u);
      r := if id.Some? then Ok(id.value) else Err(ManagerError.EmailConflict);
    }

    /** `CustomUserManager.create_superuser`: the flag checks, then `create_user`
        with both flags set. */
    method CreateSuperuser(email: string, phone: Option<string>, password: Option<string>, extra: ExtraFields)
      returns (r: Result<UserId, ManagerError>)
      requires Valid()
      modifies this`users, this`customers, this`providers, this`nextId
      ensures Valid()
      ensures SuperuserFields(extra).Err? ==> r == Err(SuperuserFields(extra).error) && unchanged(this)
      ensures SuperuserFields(extra).Ok? ==> CreatedUser(r, email, phone, password, SuperuserFields(extra).value)
      ensures r.Ok? ==> users[r.value].isStaff && users[r.value].isSuperuser
    {
      match SuperuserFields(extra)
      case Err(e) => r := Err(e);
      case Ok(fields) => r := CreateUser(email, phone, password, fields);
    }

    /** `register`: sign-up validation and `create`, the first save, then an OTP
        for the e-mail as saved. Nothing is stored and no code is issued unless
        all of these succeed. */
    method Register(req: SignUpRequest) returns (r: Result<UserId, RegisterError>)
      requires Valid()
      modifies this`users, this`customers, this`providers, this`nextId, this`otps
      ensures Valid()
      ensures SignUp(old(users), req).Err? ==>
                r == Err(SignUpRejected(SignUp(old(users), req).error)) && unchanged(this)
      ensures SignUp(old(users), req).Ok? && EmailTaken(old(users), Lower(req.email)) ==>
                r == Err(DuplicateOnSave) && unchanged(this)
      ensures SignUp(old(users), req).Ok? && !EmailTaken(old(users), Lower(req.email)) ==>
                var saved := Lower(req.email);
                && r.Ok?
                && UserSaved(r.value, SignUp(old(users), req).value.(email := saved))
                && saved in otps && OtpService.IsOtpCode(otps[saved])
                && otps == OtpService.Issue(old(otps), saved, otps[saved])
    {
      match SignUp(users, req)
      case Err(e) =>
        r := Err(SignUpRejected(e));
      case Ok(u) =>
        var id := SaveNewUser(u);
        if id.None? {
          r := Err(DuplicateOnSave);
        } else {
          var code := SendMockOtp(users[id.value].email);
          r := Ok(id.value);
        }
    }

    /** `verify_otp`: the user is marked verified only when the code matches and
        the user exists; the code stays in the store. */
    method VerifyOtp(email: string, otp: string) returns (r: Result<UserId, Views.OtpError>)
      requires Valid()
      modifies this`users
      ensures Valid()
      ensures r == Views.VerifyOtp(otps, old(users), email, otp)
      ensures r.Ok? ==> users == old(users)[r.value := old(users)[r.value].(isVerified := true)]
      ensures r.Err? ==> users == old(users)
    {
      match Views.VerifyOtp(otps, users, email, otp)
      case Err(e) =>
        r := Err(e);
      case Ok(id) =>
        Views.MarkVerifiedOnlySetsFlag(users, id);
        users := Views.MarkVerified(users, id);
        r := Ok(id);
    }

    /** `BookingCreateView`: the serializer checks the service, `perform_create`
        checks the customer profile, and the booking is stored under a fresh id
        with the caller as customer and status `pending`. */
    method CreateBooking(caller: UserId, req: BookingRequest) returns (r: Result<BookingId, Views.BookingError>)
      requires Valid()
      modifies this`bookings, this`nextId
      ensures Valid()
      ensures Views.CreateBooking(services, customers, caller, req).Err? ==>
                && r == Err(Views.CreateBooking(services, customers, caller, req).error)
                && bookings == old(bookings) && nextId == old(nextId)
      ensures Views.CreateBooking(services, customers, caller, req).Ok? ==>
                && r == Ok(old(nextId)) && old(nextId) !in old(bookings)
                && bookings == old(bookings)[old(nextId) := Views.CreateBooking(services, customers, caller, req).value]
                && nextId == old(nextId) + 1
    {
      match Views.CreateBooking(services, customers, caller, req)
      case Err(e) =>
        r := Err(e);
      case Ok(b) =>
        var id := nextId;
        bookings := bookings[id := b];
        nextId := nextId + 1;
        r := Ok(id);
    }

    /** `BookingStatusUpdateView.patch`: 404, then 403, then 400, then only that
        booking's status is written. */
    method UpdateBookingStatus(caller: UserId, pk: BookingId, status: Option<string>)
      returns (r: Result<Booking, Views.PatchError>)
      requires Valid()
      modifies this`bookings
      ensures Valid()
      ensures r == Views.UpdateStatus(old(bookings), services, providers, caller, pk, status)
      ensures r.Ok? ==> bookings == old(bookings)[pk := r.value]
      ensures r.Err? ==> bookings == old(bookings)
    {
      r := Views.UpdateStatus(bookings, services, providers, caller, pk, status);
      if r.Ok? {
        SetStatusKeepsTables(users, customers, providers, services, bookings, nextId, pk, r.value.status);
        bookings := bookings[pk := r.value];
      }
    }

    /** `ServiceCreateView` */
    method CreateService(caller: UserId, req: Views.ServiceRequest) returns (r: Result<ServiceId, Views.ServiceError>)
      requires Valid()
      modifies this`services, this`nextId
      ensures Valid()
      ensures Views.CreateService(users, providers, caller, req).Err? ==>
                && r == Err(Views.CreateService(users, providers, caller, req).error)
                && services == old(services) && nextId == old(nextId)
      ensures Views.CreateService(users, providers, caller, req).Ok? ==>
                && r == Ok(old(nextId)) && old(nextId) !in old(services)
                && services == old(services)[old(nextId) := Views.CreateService(users, providers, caller, req).value]
                && nextId == old(nextId) + 1
    {
      match Views.CreateService(users, providers, caller, req)
      case Err(e) =>
        r := Err(e);
      case Ok(s) =>
        var id := nextId;
        services := services[id := s];
        nextId := nextId + 1;
        r := Ok(id);
    }
  }
}
