/** `AdminUserViewSet`: the staff-only user endpoints. Every endpoint first
    applies the `IsAdminUser` permission, then looks the user up among staff
    users only; destroy refuses self-deletion, create forces the staff and
    active flags, and the password reset stores the new password only after
    its checks pass. */
module AdminUsers {
  import opened Wrappers
  import opened Json
  import opened Http
  import opened Accounts
  import opened AccountSerializers
  import Seqs

  const SelfDeleteMessage: string := "You can't delete yourself."
  const PasswordUpdatedMessage: string := "Password updated successfully."
  const NotAuthenticatedMessage: string := "Authentication credentials were not provided."
  const PermissionDeniedMessage: string := "You do not have permission to perform this action."

  datatype Action = List | Retrieve | Create | Update | PartialUpdate | Destroy | ResetPassword

  datatype SerializerClass = AdminUserSerializer | AdminUserUpdateSerializer

  /** `get_serializer_class`: the restricted serializer for both kinds of
      update. Through the update actions neither the email nor the password
      can be written; every other action's serializer carries both. */
  function GetSerializerClass(a: Action): (s: SerializerClass)
    ensures s == AdminUserUpdateSerializer <==> a == Update || a == PartialUpdate
    ensures "email" !in FieldsOf(s) && "password" !in FieldsOf(s) <==> a == Update || a == PartialUpdate
    ensures a != Update && a != PartialUpdate ==> "email" in FieldsOf(s) && "password" in FieldsOf(s)
  {
    UpdateFieldsRestricted();
    if a == Update || a == PartialUpdate then AdminUserUpdateSerializer else AdminUserSerializer
  }

  function FieldsOf(s: SerializerClass): seq<string> {
    match s
    case AdminUserSerializer => AdminUserFields
    case AdminUserUpdateSerializer => AdminUserUpdateFields
  }

  /** `IsAdminUser`: nothing when the request may proceed, otherwise the
      refusal (an anonymous request is asked to authenticate). */
  function CheckPermission<T>(r: Requester): (denied: Option<Response<T>>)
    ensures denied.None? <==> IsAdmin(r)
    ensures r.Anonymous? ==> denied == Some(Response(UNAUTHORIZED, Detail(NotAuthenticatedMessage)))
    ensures r.Authenticated? && !r.user.isStaff ==> denied == Some(Response(FORBIDDEN, Detail(PermissionDeniedMessage)))
  {
    if r.Anonymous? then Some(Response(UNAUTHORIZED, Detail(NotAuthenticatedMessage)))
    else if !r.user.isStaff then Some(Response(FORBIDDEN, Detail(PermissionDeniedMessage)))
    else None
  }

  /** `list`: the queryset is `is_staff=True`, so exactly the staff users
      are listed, in table order. */
  function ListUsers(store: UserStore, requester: Requester): (resp: Response<seq<User>>)
    reads store
    ensures !IsAdmin(requester) ==> resp == CheckPermission(requester).value
    ensures IsAdmin(requester) ==>
      (&& resp.status == OK && resp.body.Data?
       && (forall u :: u in resp.body.value <==> u in store.users && u.isStaff))
  {
    match CheckPermission(requester)
    case Some(denied) => denied
    case None => Response(OK, Data(Seqs.Filter(store.users, (u: User) => u.isStaff)))
  }

  /** `retrieve`: only a staff user is found; any other id is not found. */
  function RetrieveUser(store: UserStore, requester: Requester, id: nat): (resp: Response<User>)
    reads store
    ensures !IsAdmin(requester) ==> resp == CheckPermission(requester).value
    ensures IsAdmin(requester) && store.FindStaff(id).None? ==> resp == Response(NOT_FOUND, Empty)
    ensures IsAdmin(requester) && store.FindStaff(id).Some? ==> resp == Response(OK, Data(store.FindStaff(id).value))
    ensures resp.status == OK ==>
      (&& resp.body.Data? && resp.body.value in store.users
       && resp.body.value.id == id && resp.body.value.isStaff)
  {
    match CheckPermission(requester)
    case Some(denied) => denied
    case None =>
      match store.FindStaff(id)
      case None => Response(NOT_FOUND, Empty)
      case Some(u) => Response(OK, Data(u))
  }

  /** `create` with `perform_create`: the request data is validated, and the
      user is created with the staff and active flags set whatever the input
      said. */
  method CreateUser(store: UserStore, requester: Requester, data: Object) returns (resp: Response<User>)
    requires store.Valid()
    modifies store`users, store`nextId
    ensures store.Valid()
    ensures !IsAdmin(requester) ==> resp == CheckPermission(requester).value
    ensures IsAdmin(requester) && ParseAdminUser(old(store.users), data).Err? ==>
      resp == Response(BAD_REQUEST, Invalid(ParseAdminUser(old(store.users), data).error))
    ensures resp.status != CREATED ==> store.users == old(store.users) && store.nextId == old(store.nextId)
    ensures resp.status == CREATED ==>
      && resp.body.Data? && resp.body.value.isStaff && resp.body.value.isActive
      && ParseAdminUser(old(store.users), data).Ok?
      && resp.body.value.email == store.normalizeEmail(ParseAdminUser(old(store.users), data).value.email)
      && !resp.body.value.isSuperuser
      && resp.body.value.firstName == TextOr(ParseAdminUser(old(store.users), data).value.firstName, "")
      && resp.body.value.lastName == TextOr(ParseAdminUser(old(store.users), data).value.lastName, "")
      && (forall guess :: CheckPassword(resp.body.value, guess) <==> guess == ParseAdminUser(old(store.users), data).value.password)
      && store.users == old(store.users) + [resp.body.value]
    ensures (&& IsAdmin(requester) && ParseAdminUser(old(store.users), data).Ok?
             && !EmailInUse(old(store.users), store.normalizeEmail(ParseAdminUser(old(store.users), data).value.email)))
      ==> resp.status == CREATED
  {
    var denied := CheckPermission(requester);
    if denied.Some? {
      return denied.value;
    }
    var parsed := ParseAdminUser(store.users, data);
    if parsed.Err? {
      return Response(BAD_REQUEST, Invalid(parsed.error));
    }
    var created := CreateAdminUser(store, parsed.value, true, true);
    if created.Err? {
      // The unique email column refuses a normalised email that is already stored.
      return Response(INTERNAL_SERVER_ERROR, Empty);
    }
    resp := Response(CREATED, Data(created.value));
  }

  /** `update` and `partial_update` through `AdminUserUpdateSerializer`: only
      the active flag and the names can change. */
  method UpdateUser(store: UserStore, requester: Requester, id: nat, data: Object) returns (resp: Response<User>)
    requires store.Valid()
    modifies store`users
    ensures store.Valid()
    ensures !IsAdmin(requester) ==> resp == CheckPermission(requester).value && store.users == old(store.users)
    ensures IsAdmin(requester) && old(store.FindStaff(id)).None? ==>
      resp == Response(NOT_FOUND, Empty) && store.users == old(store.users)
    ensures IsAdmin(requester) && old(store.FindStaff(id)).Some? && ParseUserUpdate(data).Err? ==>
      resp == Response(BAD_REQUEST, Invalid(ParseUserUpdate(data).error)) && store.users == old(store.users)
    ensures IsAdmin(requester) && old(store.FindStaff(id)).Some? && ParseUserUpdate(data).Ok? ==>
      var updated := ApplyUserUpdate(old(store.FindStaff(id)).value, ParseUserUpdate(data).value);
      && resp == Response(OK, Data(updated))
      && store.users == Seqs.Replace(old(store.users), (v: User) => v.id == id, updated)
  {
    var denied := CheckPermission(requester);
    if denied.Some? {
      return denied.value;
    }
    var target := store.FindStaff(id);
    if target.None? {
      return Response(NOT_FOUND, Empty);
    }
    var parsed := ParseUserUpdate(data);
    if parsed.Err? {
      return Response(BAD_REQUEST, Invalid(parsed.error));
    }
    var updated := ApplyUserUpdate(target.value, parsed.value);
    store.Save(updated);
    resp := Response(OK, Data(updated));
  }

  /** `destroy`: a staff user other than the requester is deleted; deleting
      oneself is refused and changes nothing. */
  method DestroyUser(store: UserStore, requester: Requester, id: nat) returns (resp: Response<User>)
    requires store.Valid()
    modifies store`users
    ensures store.Valid()
    ensures !IsAdmin(requester) ==> resp == CheckPermission(requester).value && store.users == old(store.users)
    ensures IsAdmin(requester) && old(store.FindStaff(id)).None? ==>
      resp == Response(NOT_FOUND, Empty) && store.users == old(store.users)
    ensures IsAdmin(requester) && old(store.FindStaff(id)).Some? && requester.user.id == id ==>
      resp == Response(BAD_REQUEST, Detail(SelfDeleteMessage)) && store.users == old(store.users)
    ensures IsAdmin(requester) && old(store.FindStaff(id)).Some? && requester.user.id != id ==>
      resp == Response(NO_CONTENT, Empty) && store.users == Seqs.Filter(old(store.users), (u: User) => u.id != id)
    ensures requester.Authenticated? ==>
      forall u :: u in old(store.users) && u.id == requester.user.id ==> u in store.users
  {
    var denied := CheckPermission(requester);
    if denied.Some? {
      return denied.value;
    }
    var target := store.FindStaff(id);
    if target.None? {
      return Response(NOT_FOUND, Empty);
    }
    if target.value.id == requester.user.id {
      return Response(BAD_REQUEST, Detail(SelfDeleteMessage));
    }
    store.Delete(id);
    resp := Response(NO_CONTENT, Empty);
  }

  /** `user.set_password(new_password)` then `user.save()` on a stored user:
      its row is replaced, and afterwards exactly the new password checks
      for every row with its id. */
  method SetTargetPassword(store: UserStore, target: User, raw: string)
    requires store.Valid() && target in store.users
    modifies store`users
    ensures store.Valid()
    ensures store.users == Seqs.Replace(old(store.users), (v: User) => v.id == target.id, SetPassword(target, Some(raw)))
    ensures forall u :: u in store.users && u.id == target.id ==>
      forall guess :: CheckPassword(u, guess) <==> guess == raw
  {
    var reset := SetPassword(target, Some(raw));
    store.Save(reset);
    Seqs.ReplacePicked(old(store.users), (v: User) => v.id == target.id, reset);
  }

  /** `reset_password`: the reset serializer's checks run against the
      requester and the target; only when they pass is the target's new
      password set and saved, after which exactly the new password checks
      for the target. */
  method ResetUserPassword(store: UserStore, requester: Requester, id: nat, data: Object) returns (resp: Response<User>)
    requires store.Valid()
    modifies store`users
    ensures store.Valid()
    ensures !IsAdmin(requester) ==> resp == CheckPermission(requester).value && store.users == old(store.users)
    ensures IsAdmin(requester) && old(store.FindStaff(id)).None? ==>
      resp == Response(NOT_FOUND, Empty) && store.users == old(store.users)
    ensures IsAdmin(requester) && old(store.FindStaff(id)).Some? ==>
      var check := CheckPasswordReset(requester.user, old(store.FindStaff(id)).value, data);
      && (check.Err? ==> resp == Response(BAD_REQUEST, Invalid(check.error)) && store.users == old(store.users))
      && (check.Ok? ==>
        && resp == Response(OK, Detail(PasswordUpdatedMessage))
        && store.users == Seqs.Replace(old(store.users), (v: User) => v.id == id,
             SetPassword(old(store.FindStaff(id)).value, Some(check.value.newPassword)))
        && forall u :: u in store.users && u.id == id ==>
             forall guess :: CheckPassword(u, guess) <==> guess == check.value.newPassword)
  {
    var denied := CheckPermission(requester);
    if denied.Some? {
      return denied.value;
    }
    var target := store.FindStaff(id);
    if target.None? {
      return Response(NOT_FOUND, Empty);
    }
    var check := CheckPasswordReset(requester.user, target.value, data);
    if check.Err? {
      return Response(BAD_REQUEST, Invalid(check.error));
    }
    SetTargetPassword(store, target.value, check.value.newPassword);
    resp := Response(OK, Detail(PasswordUpdatedMessage));
  }
}
