/** The user table and its manager: `create_user`, `create_superuser`, and the
    password operations the admin endpoints use. Email is the login name, so
    every user's username is their email and emails are unique. */
module Accounts {
  import opened Wrappers
  import Seqs

  const MissingEmailMessage: string := "Users must have an email address"

  /** What `set_password` leaves in the password column. The hasher is abstracted
      as remembering which raw password was set; `None` gives an unusable
      password, which no raw password checks against. */
  datatype Credential = Unusable | Hashed(raw: string)

  datatype User = User(
    id: nat,
    email: string,
    username: string,
    credential: Credential,
    isStaff: bool,
    isActive: bool,
    isSuperuser: bool,
    firstName: string,
    lastName: string)

  /** `user.check_password(raw)`. */
  predicate CheckPassword(u: User, raw: string) {
    u.credential == Hashed(raw)
  }

  /** `user.set_password(raw)`: afterwards exactly `raw` checks, and nothing
      else about the user changes. */
  function SetPassword(u: User, raw: Option<string>): (v: User)
    ensures forall guess :: CheckPassword(v, guess) <==> raw == Some(guess)
    ensures v.(credential := u.credential) == u
  {
    u.(credential := if raw.Some? then Hashed(raw.value) else Unusable)
  }

  /** Who sent a request: nobody (anonymous) or a user of the table. */
  datatype Requester = Anonymous | Authenticated(user: User)

  /** The `IsAdminUser` permission: an authenticated staff user. */
  predicate IsAdmin(r: Requester) {
    r.Authenticated? && r.user.isStaff
  }

  /** Why `create_user` refused: no email, or the unique email column already
      holds the normalised email. */
  datatype CreateError = MissingEmail | EmailTaken

  predicate EmailInUse(users: seq<User>, email: string) {
    exists u :: u in users && u.email == email
  }

  class UserStore {
    /** `normalize_email`, left abstract. */
    const normalizeEmail: string -> string
    /** The rows, in primary-key order. */
    var users: seq<User>
    /** The primary key the next saved user receives. */
    var nextId: nat

    ghost predicate Valid()
      reads this
    {
      && (forall i :: 0 <= i < |users| ==> users[i].id < nextId && users[i].username == users[i].email)
      && (forall i, j :: 0 <= i < j < |users| ==> users[i].id < users[j].id && users[i].email != users[j].email)
    }

    constructor (normalizeEmail: string -> string)
      ensures Valid()
      ensures this.normalizeEmail == normalizeEmail && users == [] && nextId == 1
    {
      this.normalizeEmail := normalizeEmail;
      users, nextId := [], 1;
    }

    /** `User.objects.filter(is_staff=True).get(pk=id)`: only staff users are found. */
    function FindStaff(id: nat): (r: Option<User>)
      reads this
      ensures r.Some? ==> r.value in users && r.value.id == id && r.value.isStaff
      ensures r.None? <==> forall u :: u in users ==> u.id != id || !u.isStaff
    {
      Seqs.First(users, (u: User) => u.id == id && u.isStaff)
    }

    /** `UserManager.create_user`: refuses a missing or empty email; otherwise
        builds a user whose username is the normalised email, sets its password
        and saves it under the next primary key. */
    method CreateUser(
      email: Option<string>,
      password: Option<string>,
      isStaff: bool := false,
      isActive: bool := true,
      isSuperuser: bool := false,
      firstName: string := "",
      lastName: string := "")
      returns (r: Result<User, CreateError>)
      requires Valid()
      modifies this`users, this`nextId
      ensures Valid()
      ensures email == None || email == Some("") ==> r == Err(MissingEmail)
      ensures r.Err? ==> users == old(users) && nextId == old(nextId)
      ensures r == Err(EmailTaken) ==> email.Some? && EmailInUse(old(users), normalizeEmail(email.value))
      ensures email.Some? && email.value != "" && !EmailInUse(old(users), normalizeEmail(email.value)) ==> r.Ok?
      ensures r.Ok? ==>
        && email.Some?
        && r.value.email == normalizeEmail(email.value)
        && r.value.username == r.value.email
        && r.value.id == old(nextId)
        && r.value.isStaff == isStaff && r.value.isActive == isActive && r.value.isSuperuser == isSuperuser
        && r.value.firstName == firstName && r.value.lastName == lastName
        && (forall guess :: CheckPassword(r.value, guess) <==> password == Some(guess))
        && users == old(users) + [r.value]
    {
      if email == None || email == Some("") {
        return Err(MissingEmail);
      }
      var normalized := normalizeEmail(email.value);
      var unsaved := User(nextId, normalized, normalized, Unusable, isStaff, isActive, isSuperuser, firstName, lastName);
      var user := SetPassword(unsaved, password);
      if EmailInUse(users, normalized) {
        return Err(EmailTaken);
      }
      users := users + [user];
      nextId := nextId + 1;
      r := Ok(user);
    }

    /** `UserManager.create_superuser`: `create_user` with the staff and
        superuser flags set. */
    method CreateSuperuser(email: Option<string>, password: Option<string>, firstName: string := "", lastName: string := "")
      returns (r: Result<User, CreateError>)
      requires Valid()
      modifies this`users, this`nextId
      ensures Valid()
      ensures email == None || email == Some("") ==> r == Err(MissingEmail)
      ensures r.Err? ==> users == old(users) && nextId == old(nextId)
      ensures email.Some? && email.value != "" && !EmailInUse(old(users), normalizeEmail(email.value)) ==> r.Ok?
      ensures r.Ok? ==>
        && r.value.isStaff && r.value.isSuperuser && r.value.isActive
        && email.Some? && r.value.email == normalizeEmail(email.value)
        && (forall guess :: CheckPassword(r.value, guess) <==> password == Some(guess))
        && users == old(users) + [r.value]
    {
      r := CreateUser(email, password, isStaff := true, isSuperuser := true, firstName := firstName, lastName := lastName);
    }

    /** `user.save()` for a user already in the table: its row becomes `u`.
        Callers keep the email and username of the stored row. */
    method Save(u: User)
      requires Valid()
      requires exists v :: v in users && v.id == u.id && v.email == u.email && v.username == u.username
      modifies this`users
      ensures Valid()
      ensures users == Seqs.Replace(old(users), (v: User) => v.id == u.id, u)
    {
      SaveKeepsValid(users, u, nextId);
      users := Seqs.Replace(users, (v: User) => v.id == u.id, u);
    }

    /** Deletes the user whose primary key is `id`. */
    method Delete(id: nat)
      requires Valid()
      modifies this`users
      ensures Valid()
      ensures users == Seqs.Filter(old(users), (u: User) => u.id != id)
    {
      ghost var before := users;
      users := Seqs.Filter(users, (u: User) => u.id != id);
      DeleteKeepsValid(before, id, nextId);
    }
  }

  ghost predicate ValidRows(users: seq<User>, nextId: nat) {
    && (forall i :: 0 <= i < |users| ==> users[i].id < nextId && users[i].username == users[i].email)
    && (forall i, j :: 0 <= i < j < |users| ==> users[i].id < users[j].id && users[i].email != users[j].email)
  }

  lemma {:induction false} DeleteKeepsValid(users: seq<User>, id: nat, nextId: nat)
    requires ValidRows(users, nextId)
    ensures ValidRows(Seqs.Filter(users, (u: User) => u.id != id), nextId)
  {
    if users != [] {
      var init := users[..|users| - 1];
      var last := users[|users| - 1];
      assert ValidRows(init, nextId) by {
        assert forall i :: 0 <= i < |init| ==> init[i] == users[i];
      }
      DeleteKeepsValid(init, id, nextId);
      var f := Seqs.Filter(init, (u: User) => u.id != id);
      if last.id != id {
        forall c | c in f ensures c.id < last.id && c.email != last.email {
          var k :| 0 <= k < |init| && init[k] == c;
          assert users[k] == c;
        }
        AppendKeepsValid(f, last, nextId);
      }
    }
  }

  /** Appending a row whose key is above every stored key and whose email is
      new keeps the rows valid. */
  lemma AppendKeepsValid(users: seq<User>, last: User, nextId: nat)
    requires ValidRows(users, nextId)
    requires last.id < nextId && last.username == last.email
    requires forall c :: c in users ==> c.id < last.id && c.email != last.email
    ensures ValidRows(users + [last], nextId)
  {
    var r := users + [last];
    forall i, j | 0 <= i < j < |r| ensures r[i].id < r[j].id && r[i].email != r[j].email {
      if j == |users| {
        assert r[i] in users;
      }
    }
  }

  lemma SaveKeepsValid(users: seq<User>, u: User, nextId: nat)
    requires ValidRows(users, nextId)
    requires exists v :: v in users && v.id == u.id && v.email == u.email && v.username == u.username
    ensures ValidRows(Seqs.Replace(users, (v: User) => v.id == u.id, u), nextId)
  {
    var r := Seqs.Replace(users, (v: User) => v.id == u.id, u);
    var v :| v in users && v.id == u.id && v.email == u.email && v.username == u.username;
    var k :| 0 <= k < |users| && users[k] == v;
    forall i | 0 <= i < |r|
      ensures r[i].id == users[i].id && r[i].email == users[i].email && r[i].username == users[i].username
    {
      if users[i].id == u.id {
        assert users[i].id == users[k].id;
        assert i == k by {
          assert !(i < k) && !(k < i);
        }
      }
    }
  }
}
