/**
 * UserSerializer (fields email, password and name; the password is
 * write-only and at least five characters) as used by the sign-up and
 * profile views, and the data the login serializer returns.
 *
 * Validation gives what DRF derives from the model. Every text field is
 * trimmed of surrounding whitespace before it is checked and stored. The
 * email is required, non-blank, at most 255 characters and must not be
 * taken verbatim by another user; the password is required and at least
 * five characters once trimmed; name is optional and nullable. The unique
 * check compares the trimmed address while create_user stores it
 * normalised, so an address differing from a stored one only in the case
 * of its domain passes validation and is then refused by the database.
 */
module UserSerializers {
  import opened Wrappers
  import opened Records
  import Email
  import Accounts
  import Tables
  import Views
  import Payloads
  import PS = ProductSerializers

  const EmailMaxLength: nat := 255
  const PasswordMinLength: nat := 5
  const UserFields: set<string> := {"email", "password", "name"}

  /** No user but `self` has exactly the address `e`. */
  predicate EmailFree(e: string, users: map<UserId, User>, self: Option<UserId>) {
    forall id | id in users :: users[id].email == e ==> self == Some(id)
  }

  /** What UserSerializer.is_valid accepts; `partial` for PATCH, where no field is required. */
  predicate Acceptable(payload: Row, partial: bool, users: map<UserId, User>, self: Option<UserId>) {
    && (partial || ("email" in payload && "password" in payload))
    && ("email" in payload ==>
          && payload["email"].Text? && Payloads.Cleaned(payload["email"].s) != "" && |Payloads.Cleaned(payload["email"].s)| <= EmailMaxLength
          && EmailFree(Payloads.Cleaned(payload["email"].s), users, self))
    && ("password" in payload ==> payload["password"].Text? && |Payloads.Cleaned(payload["password"].s)| >= PasswordMinLength)
    && ("name" in payload ==> payload["name"].Text? || payload["name"].Null?)
  }

  /** A name field as stored: null, or the text sent, trimmed. */
  function NameOf(v: Value): (n: Option<string>)
    ensures v.Null? ==> n.None?
    ensures v.Text? ==> n == Some(Payloads.Cleaned(v.s))
  {
    if v.Text? then Some(Payloads.Cleaned(v.s)) else None
  }

  /** The serializer's output for a user: password is write-only and never rendered. */
  function Account(u: User): (row: Row)
    ensures row.Keys == {"email", "name"} && "password" !in row
    ensures row["email"] == Text(u.email) && row["name"] == Payloads.TextValue(u.name)
  {
    map["email" := Text(u.email), "name" := Payloads.TextValue(u.name)]
  }

  /**
   * Sign-up as written: create(validated_data) calls
   * create_user(**validated_data), whose only parameters are email and
   * password, so a payload carrying a name raises TypeError.
   */
  function SignUpAsWritten(users: map<UserId, User>, payload: Row): (r: Status)
    ensures "name" in payload ==> r != Created201
    ensures r == Created201 <==> (
      && Acceptable(payload, false, users, None) && "name" !in payload
      && Email.Normalize(Payloads.Cleaned(payload["email"].s)) !in (set id | id in users :: users[id].email))
  {
    if !Acceptable(payload, false, users, None) then BadRequest400
    else if "name" in payload then ServerError500
    else if Email.Normalize(Payloads.Cleaned(payload["email"].s)) in (set id | id in users :: users[id].email) then ServerError500
    else Created201
  }

  /** The user of the login test, signing up with the same details, is refused with a server error. */
  lemma LoginTestUserCannotSignUp(users: map<UserId, User>)
    requires forall id | id in users :: users[id].email != "email@gmail.com"
    ensures SignUpAsWritten(users, map[
      "name" := Text("Name test"), "email" := Text("email@gmail.com"), "password" := Text("test-pw-user-123")])
      == ServerError500
  {
    var payload := map[
      "name" := Text("Name test"), "email" := Text("email@gmail.com"), "password" := Text("test-pw-user-123")];
    assert Email.Stripped(payload["email"].s) && Email.Stripped(payload["password"].s);
    assert EmailFree(payload["email"].s, users, None);
  }

  /**
   * Sign-up, corrected: create_user as the serializer and the login test
   * call it, taking the name along with email and password. The trimmed
   * address is stored normalised, and the trimmed password only as its hash.
   */
  method SignUp(db: Tables.Store, payload: Row) returns (resp: Views.Response, created: Option<UserId>)
    requires db.Valid()
    modifies db
    ensures db.Valid()
    ensures !Acceptable(payload, false, old(db.users), None) ==> resp == Views.Refused(BadRequest400)
    ensures resp.status == Created201 <==>
      Acceptable(payload, false, old(db.users), None) && Email.Normalize(Payloads.Cleaned(payload["email"].s)) !in old(db.Emails())
    ensures resp.status != Created201 ==> unchanged(db) && created.None?
    ensures resp.status != Created201 && Acceptable(payload, false, old(db.users), None) ==> resp == Views.Refused(ServerError500)
    ensures resp.status == Created201 ==>
      && created.Some? && created.value !in old(db.users)
      && var u := Accounts.NewUser(Payloads.Cleaned(payload["email"].s), Some(Payloads.Cleaned(payload["password"].s)), db.hash).value;
      && db.State() == old(db.State()).(users := old(db.users)[created.value :=
           if "name" in payload then u.(name := NameOf(payload["name"])) else u])
      && Accounts.CheckPassword(db.users[created.value], Payloads.Cleaned(payload["password"].s), db.hash)
      && resp.body == Views.One(Account(db.users[created.value]))
  {
    if !Acceptable(payload, false, db.users, None) {
      return Views.Refused(BadRequest400), None;
    }
    var email, password := Payloads.Cleaned(payload["email"].s), Payloads.Cleaned(payload["password"].s);
    assert email != "";
    var name := if "name" in payload then Some(NameOf(payload["name"])) else None;
    var r := CreateNamedUser(db, email, password, name);
    if r.Failure? {
      return Views.Refused(ServerError500), None;
    }
    var id := r.value;
    resp, created := Views.Response(Created201, Views.One(Account(db.users[id]))), Some(id);
  }

  /**
   * create_user as the corrected sign-up calls it: the user create_user
   * builds from email and password, with the name set when one is given,
   * stored under a fresh id; refused with nothing stored when the email is
   * empty or its normalised form is taken.
   */
  method CreateNamedUser(db: Tables.Store, email: string, password: string, name: Option<Option<string>>)
    returns (r: Result<UserId, Accounts.AccountError>)
    requires db.Valid()
    modifies db
    ensures db.Valid()
    ensures r.Success? <==> email != "" && Email.Normalize(email) !in old(db.Emails())
    ensures r.Failure? ==> unchanged(db)
    ensures r.Success? ==>
      && r.value !in old(db.users)
      && var u := Accounts.NewUser(email, Some(password), db.hash).value;
      && db.State() == old(db.State()).(users := old(db.users)[r.value := if name.Some? then u.(name := name.value) else u])
      && Accounts.CheckPassword(db.users[r.value], password, db.hash)
  {
    ghost var before := db.users;
    r := db.CreateUser(email, Some(password));
    if r.Failure? {
      return;
    }
    var id := r.value;
    if name.Some? {
      var u := db.users[id].(name := name.value);
      assert forall other :: other in db.users && other != id ==> other in before && db.users[other] == before[other];
      assert u.email !in old(db.Emails());
      db.SaveUser(id, u);
    }
  }

  /**
   * PUT or PATCH on the caller's own account. The password is popped
   * from the validated data with no default, so a request without one
   * raises KeyError; the remaining fields are copied onto the user as
   * validated, trimmed (the email is not normalised here), and the trimmed
   * password is then re-hashed into the credential.
   */
  method Update(db: Tables.Store, uid: UserId, payload: Row, partial: bool) returns (resp: Views.Response)
    requires db.Valid() && uid in db.users
    modifies db
    ensures db.Valid()
    ensures !Acceptable(payload, partial, old(db.users), Some(uid)) ==> resp == Views.Refused(BadRequest400)
    ensures Acceptable(payload, partial, old(db.users), Some(uid)) && "password" !in payload ==> resp == Views.Refused(ServerError500)
    ensures resp.status == Ok200 <==> Acceptable(payload, partial, old(db.users), Some(uid)) && "password" in payload
    ensures resp.status != Ok200 ==> unchanged(db)
    ensures resp.status == Ok200 ==>
      && uid in db.users
      && db.State() == old(db.State()).(users := old(db.users)[uid := db.users[uid]])
      && db.users[uid].email == (if "email" in payload then Payloads.Cleaned(payload["email"].s) else old(db.users[uid].email))
      && db.users[uid].name == (if "name" in payload then NameOf(payload["name"]) else old(db.users[uid].name))
      && Accounts.CheckPassword(db.users[uid], Payloads.Cleaned(payload["password"].s), db.hash)
      && db.users[uid].isActive == old(db.users[uid].isActive)
      && db.users[uid].isStaff == old(db.users[uid].isStaff)
      && db.users[uid].isSuperuser == old(db.users[uid].isSuperuser)
      && resp.body == Views.One(Account(db.users[uid]))
  {
    if !Acceptable(payload, partial, db.users, Some(uid)) {
      return Views.Refused(BadRequest400);
    }
    if "password" !in payload {
      return Views.Refused(ServerError500);
    }
    var password := Payloads.Cleaned(payload["password"].s);
    assert |password| >= PasswordMinLength;
    var user := Written(db.users[uid], payload);
    EmailStaysUnique(db.users, uid, payload, partial, user.email);
    user := SaveWithPassword(db, uid, user, password);
    resp := Views.Response(Ok200, Views.One(Account(user)));
  }

  /**
   * The saves of UserSerializer.update: the user with its copied fields,
   * then, when the password is not empty, the user with that password
   * hashed into its credential.
   */
  method SaveWithPassword(db: Tables.Store, uid: UserId, user: User, password: string) returns (saved: User)
    requires db.Valid() && uid in db.users
    requires forall other :: other in db.users && other != uid ==> db.users[other].email != user.email
    modifies db
    ensures db.Valid()
    ensures saved == if password != "" then Accounts.SetPassword(user, Some(password), db.hash) else user
    ensures db.State() == old(db.State()).(users := old(db.users)[uid := saved])
  {
    db.SaveUser(uid, user);
    saved := user;
    if password != "" {
      saved := Accounts.SetPassword(user, Some(password), db.hash);
      db.SaveUser(uid, saved);
    }
  }

  /**
   * ModelSerializer.update: each validated field other than the password
   * copied onto the user; the credential and the flags are untouched.
   */
  function Written(u: User, payload: Row): (r: User)
    requires "email" in payload ==> payload["email"].Text?
    ensures r.email == if "email" in payload then Payloads.Cleaned(payload["email"].s) else u.email
    ensures r.name == if "name" in payload then NameOf(payload["name"]) else u.name
    ensures r.credential == u.credential
    ensures r.isActive == u.isActive && r.isStaff == u.isStaff && r.isSuperuser == u.isSuperuser
  {
    var withEmail := if "email" in payload then u.(email := Payloads.Cleaned(payload["email"].s)) else u;
    if "name" in payload then withEmail.(name := NameOf(payload["name"])) else withEmail
  }

  /** The address an accepted update leaves on the user is nobody else's. */
  lemma EmailStaysUnique(users: map<UserId, User>, uid: UserId, payload: Row, partial: bool, e: string)
    requires Tables.UniqueEmails(users) && uid in users
    requires Acceptable(payload, partial, users, Some(uid))
    requires e == if "email" in payload then Payloads.Cleaned(payload["email"].s) else users[uid].email
    ensures forall other :: other in users && other != uid ==> users[other].email != e
  {
  }

  /**
   * MyTokenObtainPairSerializer.validate: the token data the parent
   * serializer produced, with the signed-in user's email, name and
   * superuser flag written into it.
   */
  method LoginData(parent: Row, u: User) returns (data: Row)
    ensures data.Keys == parent.Keys + {"email", "name", "superuser"}
    ensures data["email"] == Text(u.email) && data["name"] == Payloads.TextValue(u.name)
    ensures data["superuser"] == Flag(u.isSuperuser)
    ensures forall k :: k in parent && k !in {"email", "name", "superuser"} ==> data[k] == parent[k]
  {
    data := parent;
    data := data["email" := Text(u.email)];
    data := data["name" := Payloads.TextValue(u.name)];
    data := data["superuser" := Flag(u.isSuperuser)];
  }
}
