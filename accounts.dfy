/**
 * The field logic of UserManager.create_user and create_superuser and of
 * the User model's defaults: the email is required and normalised, the
 * password is kept only as a hash, and the three flags start as active,
 * not staff, not superuser. The hasher is any function from the raw
 * password to a digest; the model never looks inside it.
 */
module Accounts {
  import opened Wrappers
  import opened Records
  import Email

  /** The ValueError create_user raises, and the unique constraint on email. */
  datatype AccountError = EmailRequired | EmailTaken

  /** `self.model(email=...)`: a user carrying the field defaults of the User model. */
  function Blank(email: string): (u: User)
    ensures u.email == email && u.name == None
    ensures u.isActive && !u.isStaff && !u.isSuperuser
  {
    User(email, None, Unusable, true, false, false)
  }

  /** set_password: a missing password makes the credential unusable, otherwise it is the hash. */
  function SetPassword(u: User, raw: Option<string>, hash: string -> Digest): (r: User)
    ensures r.(credential := u.credential) == u
    ensures raw.None? ==> r.credential == Unusable
    ensures raw.Some? ==> r.credential == Hashed(hash(raw.value))
  {
    match raw
    case None => u.(credential := Unusable)
    case Some(p) => u.(credential := Hashed(hash(p)))
  }

  /** check_password: true when the stored hash is the hash of `raw`; never for an unusable credential. */
  predicate CheckPassword(u: User, raw: string, hash: string -> Digest) {
    u.credential == Hashed(hash(raw))
  }

  /** The user create_user builds before saving it, or the error it raises. */
  function NewUser(email: string, password: Option<string>, hash: string -> Digest): (r: Result<User, AccountError>)
    ensures r.Failure? <==> email == ""
    ensures r.Failure? ==> r.error == EmailRequired
    ensures r.Success? ==> r.value.email == Email.Normalize(email) && r.value.name == None
    ensures r.Success? ==> r.value.isActive && !r.value.isStaff && !r.value.isSuperuser
    ensures r.Success? && password.Some? ==> CheckPassword(r.value, password.value, hash)
    ensures r.Success? && password.None? ==> forall raw :: !CheckPassword(r.value, raw, hash)
  {
    if email == "" then Failure(EmailRequired)
    else Success(SetPassword(Blank(Email.Normalize(email)), password, hash))
  }

  /** The two flag assignments of create_superuser. */
  function Promote(u: User): (r: User)
    ensures r.isStaff && r.isSuperuser
    ensures r.email == u.email && r.credential == u.credential && r.name == u.name && r.isActive == u.isActive
  {
    u.(isStaff := true, isSuperuser := true)
  }

  /** The stored email never depends on the case of the domain the caller typed. */
  lemma NewUserIgnoresDomainCase(local: string, d1: string, d2: string, password: Option<string>, hash: string -> Digest)
    requires '@' !in d1 && '@' !in d2 && Email.Lower(d1) == Email.Lower(d2)
    ensures NewUser(local + "@" + d1, password, hash) == NewUser(local + "@" + d2, password, hash)
  {
    Email.NormalizeIgnoresDomainCase(local, d1, d2);
  }

  /** A superuser differs from the user create_user would build only in its two flags. */
  lemma SuperuserIsPromotedUser(email: string, password: Option<string>, hash: string -> Digest)
    requires email != ""
    ensures var u := NewUser(email, password, hash).value;
      Promote(u).(isStaff := false, isSuperuser := false) == u
  {
  }
}
