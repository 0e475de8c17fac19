/** The admin-user serializers: the fields each accepts, how the request data
    becomes validated data, the password-reset checks, and the creation of
    an admin user through the manager. */
module AccountSerializers {
  import opened Wrappers
  import opened Text
  import opened Json
  import opened Http
  import opened Accounts
  import opened Fields

  const EmailTakenMessage: string := "user with this email already exists."
  const WrongPasswordMessage: string := "The current password is incorrect."
  const NotOwnerMessage: string := "You can only change your own password."

  /** The column lengths of the user table behind the model serializers. */
  const EmailMaxLength: nat := 254
  const PasswordMaxLength: nat := 128
  const NameMaxLength: nat := 150

  /** The fields of `AdminUserSerializer` and of `AdminUserUpdateSerializer`. */
  const AdminUserFields: seq<string> := ["id", "email", "is_active", "first_name", "last_name", "password"]
  const AdminUserUpdateFields: seq<string> := ["is_active", "first_name", "last_name"]

  /** The update serializer exposes a strict subset of the full one, and
      neither the email nor the password is among its fields. */
  lemma UpdateFieldsRestricted()
    ensures forall f :: f in AdminUserUpdateFields ==> f in AdminUserFields
    ensures "email" !in AdminUserUpdateFields && "password" !in AdminUserUpdateFields && "id" !in AdminUserUpdateFields
    ensures "email" in AdminUserFields && "password" in AdminUserFields
  {
  }

  // ---------------------------------------------------------------- password reset

  /** The validated data of `PasswordResetSerializer`. */
  datatype PasswordReset = PasswordReset(currentPassword: string, newPassword: string)

  /** The field-level validation of `PasswordResetSerializer`: both fields are
      required, non-blank text; every failing field reports its error. */
  function ParsePasswordReset(data: Object): (r: Result<PasswordReset, seq<ValidationError>>)
    ensures r.Err? ==> r.error != []
    ensures "current_password" !in data ==> r.Err? && FieldError("current_password", RequiredMessage) in r.error
    ensures "new_password" !in data ==> r.Err? && FieldError("new_password", RequiredMessage) in r.error
    ensures r.Ok? ==>
      && "current_password" in data && data["current_password"].Str?
      && "new_password" in data && data["new_password"].Str?
      && r.value.currentPassword == Strip(data["current_password"].text)
      && r.value.newPassword == Strip(data["new_password"].text)
      && r.value.currentPassword != "" && r.value.newPassword != ""
    ensures r.Ok? <==> ValidText(data, "current_password", false, None) && ValidText(data, "new_password", false, None)
    ensures r.Ok? ==> r.value == PasswordReset(SentText(data, "current_password").value, SentText(data, "new_password").value)
  {
    var current := TextField(data, "current_password", true, false, None);
    var replacement := TextField(data, "new_password", true, false, None);
    if current.Ok? && replacement.Ok? then Ok(PasswordReset(current.value.value, replacement.value.value))
    else Err(ErrorsOf("current_password", current) + ErrorsOf("new_password", replacement))
  }

  /** `PasswordResetSerializer.validate`: the requester's own current password
      is checked first, and only then whether the requester is the target
      (model instances are equal when their primary keys are). The attributes
      are returned unchanged. */
  function ValidatePasswordReset(requester: User, target: User, attrs: PasswordReset)
    : (r: Result<PasswordReset, ValidationError>)
    ensures r.Ok? <==> CheckPassword(requester, attrs.currentPassword) && requester.id == target.id
    ensures r.Ok? ==> r.value == attrs
    ensures !CheckPassword(requester, attrs.currentPassword) ==>
      r == Err(FieldError("current_password", WrongPasswordMessage))
    ensures CheckPassword(requester, attrs.currentPassword) && requester.id != target.id ==>
      r == Err(NonFieldError(NotOwnerMessage))
  {
    if !CheckPassword(requester, attrs.currentPassword) then
      Err(FieldError("current_password", WrongPasswordMessage))
    else if requester.id != target.id then
      Err(NonFieldError(NotOwnerMessage))
    else
      Ok(attrs)
  }

  /** `is_valid()` on the reset serializer: field validation, then `validate`. */
  function CheckPasswordReset(requester: User, target: User, data: Object): (r: Result<PasswordReset, seq<ValidationError>>)
    ensures r.Err? ==> r.error != []
    ensures r.Ok? ==>
      (&& ParsePasswordReset(data) == Ok(r.value)
       && CheckPassword(requester, r.value.currentPassword) && requester.id == target.id)
    ensures ParsePasswordReset(data).Err? ==> r == ParsePasswordReset(data)
    ensures && ParsePasswordReset(data).Ok?
            && CheckPassword(requester, ParsePasswordReset(data).value.currentPassword)
            && requester.id == target.id
      ==> r == ParsePasswordReset(data)
  {
    match ParsePasswordReset(data)
    case Err(es) => Err(es)
    case Ok(attrs) =>
      match ValidatePasswordReset(requester, target, attrs)
      case Err(e) => Err([e])
      case Ok(v) => Ok(v)
  }

  /** A wrong current password is reported as such even when the target is
      somebody else: the ownership check is never reached. */
  lemma WrongPasswordReportedFirst(requester: User, target: User, data: Object)
    requires ParsePasswordReset(data).Ok?
    requires !CheckPassword(requester, ParsePasswordReset(data).value.currentPassword)
    ensures CheckPasswordReset(requester, target, data) == Err([FieldError("current_password", WrongPasswordMessage)])
  {
  }

  // ---------------------------------------------------------------- admin user creation

  /** The validated data of `AdminUserSerializer`; `id` is read-only and never read. */
  datatype AdminUserData = AdminUserData(
    email: string,
    password: string,
    isActive: Option<bool>,
    firstName: Option<string>,
    lastName: Option<string>)

  /** Field-level validation of `AdminUserSerializer` against the stored
      users: email and password are required, the email must not already be
      stored (the unique column's validator), the other fields are optional. */
  function ParseAdminUser(users: seq<User>, data: Object): (r: Result<AdminUserData, seq<ValidationError>>)
    ensures r.Err? ==> r.error != []
    ensures "email" !in data ==> r.Err? && FieldError("email", RequiredMessage) in r.error
    ensures "password" !in data ==> r.Err? && FieldError("password", RequiredMessage) in r.error
    ensures r.Ok? ==>
      && r.value.email != "" && !EmailInUse(users, r.value.email)
      && r.value.password != "" && |r.value.password| <= PasswordMaxLength
      && "email" in data && data["email"].Str? && r.value.email == Strip(data["email"].text)
      && "password" in data && data["password"].Str? && r.value.password == Strip(data["password"].text)
    ensures r.Ok? <==>
      && ValidText(data, "email", false, Some(EmailMaxLength)) && !EmailInUse(users, SentText(data, "email").value)
      && ValidText(data, "password", false, Some(PasswordMaxLength))
      && FlagAccepted(data, "is_active")
      && TextAccepted(data, "first_name", false, true, Some(NameMaxLength))
      && TextAccepted(data, "last_name", false, true, Some(NameMaxLength))
    ensures r.Ok? ==>
      && r.value.isActive == SentFlag(data, "is_active")
      && r.value.firstName == SentText(data, "first_name")
      && r.value.lastName == SentText(data, "last_name")
  {
    var email := TextField(data, "email", true, false, Some(EmailMaxLength));
    var unique: Result<Option<string>, string> :=
      if email.Ok? && EmailInUse(users, email.value.value) then Err(EmailTakenMessage) else email;
    var password := TextField(data, "password", true, false, Some(PasswordMaxLength));
    var isActive := BooleanField(data, "is_active");
    var firstName := TextField(data, "first_name", false, true, Some(NameMaxLength));
    var lastName := TextField(data, "last_name", false, true, Some(NameMaxLength));
    if unique.Ok? && password.Ok? && isActive.Ok? && firstName.Ok? && lastName.Ok? then
      Ok(AdminUserData(unique.value.value, password.value.value, isActive.value, firstName.value, lastName.value))
    else
      Err(ErrorsOf("email", unique) + ErrorsOf("is_active", isActive) + ErrorsOf("first_name", firstName)
        + ErrorsOf("last_name", lastName) + ErrorsOf("password", password))
  }

  function TextOr(s: Option<string>, default: string): string {
    if s.Some? then s.value else default
  }

  /** `AdminUserSerializer.create` after `save(is_staff=..., is_active=...)`:
      the save arguments override the validated data, and the whole is handed
      to `create_user`. Names not sent are left empty. */
  method CreateAdminUser(store: UserStore, data: AdminUserData, isStaff: bool, isActive: bool)
    returns (r: Result<User, CreateError>)
    requires store.Valid()
    modifies store`users, store`nextId
    ensures store.Valid()
    ensures r.Err? ==> store.users == old(store.users) && store.nextId == old(store.nextId)
    ensures data.email != "" && !EmailInUse(old(store.users), store.normalizeEmail(data.email)) ==> r.Ok?
    ensures r.Ok? ==>
      && r.value.email == store.normalizeEmail(data.email)
      && r.value.isStaff == isStaff && r.value.isActive == isActive && !r.value.isSuperuser
      && r.value.firstName == TextOr(data.firstName, "") && r.value.lastName == TextOr(data.lastName, "")
      && (forall guess :: CheckPassword(r.value, guess) <==> guess == data.password)
      && store.users == old(store.users) + [r.value]
  {
    r := store.CreateUser(Some(data.email), Some(data.password), isStaff := isStaff, isActive := isActive,
      firstName := TextOr(data.firstName, ""), lastName := TextOr(data.lastName, ""));
  }

  // ---------------------------------------------------------------- admin user update

  /** The validated data of `AdminUserUpdateSerializer`: only its three fields,
      each optional (none is required, even for a full update). */
  datatype UserUpdate = UserUpdate(isActive: Option<bool>, firstName: Option<string>, lastName: Option<string>)

  /** Field-level validation of `AdminUserUpdateSerializer`. Keys outside its
      fields are ignored. */
  function ParseUserUpdate(data: Object): (r: Result<UserUpdate, seq<ValidationError>>)
    ensures r.Err? ==> r.error != []
    ensures r.Ok? ==>
      && (r.value.isActive.Some? <==> "is_active" in data)
      && (r.value.firstName.Some? <==> "first_name" in data)
      && (r.value.lastName.Some? <==> "last_name" in data)
    ensures r.Ok? <==>
      && FlagAccepted(data, "is_active")
      && TextAccepted(data, "first_name", false, true, Some(NameMaxLength))
      && TextAccepted(data, "last_name", false, true, Some(NameMaxLength))
    ensures r.Ok? ==>
      r.value == UserUpdate(SentFlag(data, "is_active"), SentText(data, "first_name"), SentText(data, "last_name"))
  {
    var isActive := BooleanField(data, "is_active");
    var firstName := TextField(data, "first_name", false, true, Some(NameMaxLength));
    var lastName := TextField(data, "last_name", false, true, Some(NameMaxLength));
    if isActive.Ok? && firstName.Ok? && lastName.Ok? then
      Ok(UserUpdate(isActive.value, firstName.value, lastName.value))
    else
      Err(ErrorsOf("is_active", isActive) + ErrorsOf("first_name", firstName) + ErrorsOf("last_name", lastName))
  }

  /** Keys other than the update serializer's fields make no difference. */
  lemma UpdateIgnoresOtherKeys(data: Object, key: string, v: Value)
    requires key !in AdminUserUpdateFields
    ensures ParseUserUpdate(data[key := v]) == ParseUserUpdate(data)
    ensures ParseUserUpdate(data - {key}) == ParseUserUpdate(data)
  {
    forall f | f in AdminUserUpdateFields
      ensures BooleanField(data[key := v], f) == BooleanField(data, f)
      ensures BooleanField(data - {key}, f) == BooleanField(data, f)
      ensures TextField(data[key := v], f, false, true, Some(NameMaxLength)) == TextField(data, f, false, true, Some(NameMaxLength))
      ensures TextField(data - {key}, f, false, true, Some(NameMaxLength)) == TextField(data, f, false, true, Some(NameMaxLength))
    {
      FieldsAgree(data[key := v], data, f);
      FieldsAgree(data - {key}, data, f);
    }
  }

  /** The user after the update: the sent fields replaced, every other
      column, in particular the email, username, password and staff flag, as
      it was. */
  function ApplyUserUpdate(u: User, upd: UserUpdate): (v: User)
    ensures v.id == u.id && v.email == u.email && v.username == u.username
    ensures v.credential == u.credential && v.isStaff == u.isStaff && v.isSuperuser == u.isSuperuser
    ensures v.isActive == (if upd.isActive.Some? then upd.isActive.value else u.isActive)
    ensures v.firstName == TextOr(upd.firstName, u.firstName)
    ensures v.lastName == TextOr(upd.lastName, u.lastName)
  {
    u.(isActive := if upd.isActive.Some? then upd.isActive.value else u.isActive,
       firstName := TextOr(upd.firstName, u.firstName),
       lastName := TextOr(upd.lastName, u.lastName))
  }
}
