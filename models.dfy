/** The records of app/Auth/models.py and the rules the model classes enforce
    on their own: file-size validation, e-mail normalisation and lower-casing on
    save, the superuser flags, profile creation and the booking status choices. */
module Models {
  import opened Results
  import opened Text

  type UserId = nat
  type ServiceId = nat
  type BookingId = nat

  /** `validate_file_size`: the limit is 2 * 1024 * 1024 bytes. */
  const FileSizeLimit: nat := 2 * 1024 * 1024

  function ValidateFileSize(size: nat): (r: Outcome<string>)
    ensures r.Pass? <==> size <= 2097152
  {
    if size > FileSizeLimit then Fail("File too large. Size should not exceed 2 MiB.") else Pass
  }

  /** Exactly 2 MiB is accepted and one byte more is refused. */
  lemma FileSizeBoundary()
    ensures ValidateFileSize(2 * 1024 * 1024).Pass?
    ensures ValidateFileSize(2 * 1024 * 1024 + 1).Fail?
  {
  }

  /** The password as `set_password` leaves it: unusable for `None`, otherwise an
      opaque hash of which the model keeps only what `check_password` can observe. */
  datatype Credential = Unusable | Hashed(secret: string)

  function SetPassword(password: Option<string>): (c: Credential)
    ensures password.None? <==> c == Unusable
  {
    if password.Some? then Hashed(password.value) else Unusable
  }

  predicate CheckPassword(c: Credential, password: string) {
    c.Hashed? && c.secret == password
  }

  /** A stored password matches exactly the password it was set from; an unusable
      one matches nothing. */
  lemma CheckPasswordAfterSet(password: Option<string>, attempt: string)
    ensures CheckPassword(SetPassword(password), attempt) <==> password == Some(attempt)
  {
  }

  /** A `CustomUser` row. */
  datatype User = User(
    email: string,
    phone: Option<string>,
    credential: Credential,
    isProvider: bool,
    isVerified: bool,
    isStaff: bool,
    isSuperuser: bool)

  /** The `email` column is unique. */
  ghost predicate EmailsUnique(users: map<UserId, User>) {
    forall a, b :: a in users && b in users && a != b ==> users[a].email != users[b].email
  }

  /** Every stored e-mail is in the lower-cased form `save` gives it. */
  ghost predicate EmailsLower(users: map<UserId, User>) {
    forall id :: id in users ==> IsLower(users[id].email)
  }

  /** Inserting a fresh row whose lower-case e-mail is not stored keeps the
      e-mail column unique and lower-case. */
  lemma InsertKeepsEmails(users: map<UserId, User>, id: UserId, u: User)
    requires EmailsUnique(users) && EmailsLower(users)
    requires id !in users && IsLower(u.email)
    requires forall other :: other in users ==> users[other].email != u.email
    ensures EmailsUnique(users[id := u]) && EmailsLower(users[id := u])
  {
  }

  /** `CustomUser.objects.filter(email=email).exists()` */
  predicate EmailTaken(users: map<UserId, User>, email: string) {
    exists id :: id in users && users[id].email == email
  }

  /** `CustomUser.objects.filter(phone_number=phone).exists()`. Filtering on
      `None` is an `IS NULL` lookup, so it finds the users with no phone number. */
  predicate PhoneTaken(users: map<UserId, User>, phone: Option<string>) {
    exists id :: id in users && users[id].phone == phone
  }

  /** `CustomUser.objects.get(email=email)`: the one user with that exact e-mail,
      `None` for `DoesNotExist`. */
  function FindByEmail(users: map<UserId, User>, email: string): (r: Option<UserId>)
    requires EmailsUnique(users)
    ensures r.Some? ==> r.value in users && users[r.value].email == email
    ensures r.None? <==> !EmailTaken(users, email)
  {
    if exists id :: id in users && users[id].email == email then
      var id :| id in users && users[id].email == email; Some(id)
    else None
  }

  /** `BaseUserManager.normalize_email`: the domain part after the last '@' is
      lower-cased; an address without '@' is left alone. */
  function NormalizeEmail(email: string): (r: string)
    ensures |r| == |email|
  {
    match LastIndexOf(email, '@')
    case None => email
    case Some(i) => email[..i] + "@" + Lower(email[i + 1..])
  }

  /** `CustomUser.save` lower-cases the whole address, so whatever
      `normalize_email` did before is absorbed: the stored e-mail of a user made
      by `create_user` is the lower-cased input. */
  lemma SaveAfterNormalize(email: string)
    ensures Lower(NormalizeEmail(email)) == Lower(email)
  {
  }

  /** The keyword arguments `create_user` and `create_superuser` pass on to the
      model; `None` means the caller left the key out. */
  datatype ExtraFields = ExtraFields(
    isProvider: Option<bool>,
    isVerified: Option<bool>,
    isStaff: Option<bool>,
    isSuperuser: Option<bool>)

  datatype ManagerError = EmailRequired | NotStaff | NotSuperuser | EmailConflict

  /** The user `create_user` builds before saving it: normalised e-mail, the
      password through `set_password`, every flag the caller left out false. */
  function ManagerUser(email: string, phone: Option<string>, password: Option<string>, extra: ExtraFields): (u: User)
    ensures u.email == NormalizeEmail(email) && Lower(u.email) == Lower(email)
    ensures u.phone == phone
    ensures forall p :: CheckPassword(u.credential, p) <==> password == Some(p)
    ensures u.isProvider == (extra.isProvider == Some(true))
    ensures u.isVerified == (extra.isVerified == Some(true))
    ensures u.isStaff == (extra.isStaff == Some(true))
    ensures u.isSuperuser == (extra.isSuperuser == Some(true))
  {
    SaveAfterNormalize(email);
    User(NormalizeEmail(email), phone, SetPassword(password),
         extra.isProvider.GetOr(false), extra.isVerified.GetOr(false),
         extra.isStaff.GetOr(false), extra.isSuperuser.GetOr(false))
  }

  /** `create_superuser`'s checks: both flags default to true, and either one
      given as anything but true is refused, `is_staff` first. */
  function SuperuserFields(extra: ExtraFields): (r: Result<ExtraFields, ManagerError>)
    ensures r.Ok? <==> extra.isStaff.GetOr(true) && extra.isSuperuser.GetOr(true)
    ensures r.Ok? ==> r.value.isStaff == Some(true) && r.value.isSuperuser == Some(true)
    ensures r.Ok? ==> r.value.isProvider == extra.isProvider && r.value.isVerified == extra.isVerified
    ensures !extra.isStaff.GetOr(true) ==> r == Err(NotStaff)
    ensures extra.isStaff.GetOr(true) && !extra.isSuperuser.GetOr(true) ==> r == Err(NotSuperuser)
  {
    var staff := if extra.isStaff.None? then Some(true) else extra.isStaff;
    var superuser := if extra.isSuperuser.None? then Some(true) else extra.isSuperuser;
    if staff != Some(true) then Err(NotStaff)
    else if superuser != Some(true) then Err(NotSuperuser)
    else Ok(extra.(isStaff := staff, isSuperuser := superuser))
  }

  /** The two profile models; a profile is identified by the user who owns it. */
  datatype ProfileKind = ProviderProfile | CustomerProfile

  /** The `post_save` receiver `create_profile`: on the first save exactly one
      profile, chosen by `is_provider`; on any later save none. */
  function CreateProfile(created: bool, isProvider: bool): (r: Option<ProfileKind>)
    ensures r.Some? <==> created
    ensures r == Some(ProviderProfile) <==> created && isProvider
    ensures r == Some(CustomerProfile) <==> created && !isProvider
  {
    if !created then None
    else if isProvider then Some(ProviderProfile)
    else Some(CustomerProfile)
  }

  /** A `Service` row; the price is in minor units (two decimal places). */
  datatype Service = Service(name: string, description: string, price: int, provider: UserId)

  /** `Booking.STATUS_CHOICES` */
  datatype Status = Pending | Confirmed | Cancelled | Completed

  const StatusChoices: seq<(string, string)> :=
    [("pending", "Pending"), ("confirmed", "Confirmed"),
     ("cancelled", "Cancelled"), ("completed", "Completed")]

  /** The keys of `dict(Booking.STATUS_CHOICES)`. */
  function ChoiceKeys(): set<string> {
    set k | 0 <= k < |StatusChoices| :: StatusChoices[k].0
  }

  /** The stored value of a status. */
  function StatusValue(s: Status): string {
    match s
    case Pending => "pending"
    case Confirmed => "confirmed"
    case Cancelled => "cancelled"
    case Completed => "completed"
  }

  /** `value in dict(Booking.STATUS_CHOICES)`, giving the status it names. */
  function ParseStatus(value: Option<string>): (r: Option<Status>)
    ensures r.Some? <==> value.Some? && value.value in ChoiceKeys()
    ensures r.Some? ==> StatusValue(r.value) == value.value
  {
    assert StatusChoices[0].0 == "pending" && StatusChoices[1].0 == "confirmed";
    assert StatusChoices[2].0 == "cancelled" && StatusChoices[3].0 == "completed";
    if value == Some("pending") then Some(Pending)
    else if value == Some("confirmed") then Some(Confirmed)
    else if value == Some("cancelled") then Some(Cancelled)
    else if value == Some("completed") then Some(Completed)
    else None
  }

  /** The stored value of every status parses back to that status. */
  lemma ParseStatusValue(s: Status)
    ensures ParseStatus(Some(StatusValue(s))) == Some(s)
  {
  }

  /** The `status` field's default. */
  const DefaultStatus: Status := Pending

  /** A `Booking` row; times are instants on one integer clock. */
  datatype Booking = Booking(customer: UserId, service: ServiceId, schedule: int, status: Status)

  /** `Booking.clean`: only a schedule strictly earlier than now is refused. */
  function CleanSchedule(schedule: int, now: int): (r: Outcome<string>)
    ensures r.Fail? <==> schedule < now
  {
    if schedule < now then Fail("Booking time must be in the future.") else Pass
  }

  /** A booking scheduled at exactly the current instant passes `clean`, although
      its message asks for a time in the future. */
  lemma CleanAcceptsNow(now: int)
    ensures CleanSchedule(now, now).Pass?
  {
  }
}
