/**
 * The user schema: a required, unique, well-formed email, a required password
 * that is hashed whenever it was modified before a save, and a role drawn from
 * the enumeration `user` | `admin` with default `user`. The schema has no
 * display-name path, so a name given at signup is not stored.
 */
module Users {
  import opened Common

  datatype Role = User | Admin

  /** The role path: the enum validator and its default. An absent role becomes
      `User`; a string outside the enumeration fails validation. */
  function ParseRole(s: Option<string>): (r: Option<Role>)
    ensures s.None? ==> r == Some(User)
    ensures r.Some? <==> s.None? || s == Some("user") || s == Some("admin")
    ensures r == Some(Admin) <==> s == Some("admin")
  {
    match s
    case None => Some(User)
    case Some(name) =>
      if name == "user" then Some(User)
      else if name == "admin" then Some(Admin)
      else None
  }

  /** A saved user, its password already replaced by the hash. */
  datatype UserRecord = UserRecord(email: string, password: string, role: Role)

  /** Whether some saved user has exactly this email (`findOne({ email })`). */
  predicate EmailTaken(users: map<ObjectId, UserRecord>, email: string) {
    exists id :: id in users && users[id].email == email
  }

  /** The `unique` index on email: no two saved users share one. */
  predicate UniqueEmails(users: map<ObjectId, UserRecord>) {
    forall a, b :: a in users && b in users && users[a].email == users[b].email ==> a == b
  }

  /** Adding a user whose email is not taken keeps emails unique. */
  lemma InsertKeepsUnique(users: map<ObjectId, UserRecord>, id: ObjectId, u: UserRecord)
    requires UniqueEmails(users) && id !in users && !EmailTaken(users, u.email)
    ensures UniqueEmails(users[id := u]) && EmailTaken(users[id := u], u.email)
  {
    assert id in users[id := u] && users[id := u][id].email == u.email;
  }

  /** A user document in memory, before and after `save`. `passwordModified`
      is the document's dirty mark for the password path. */
  class UserDoc {
    var email: string
    var password: string
    var role: Role
    var passwordModified: bool

    /** A new document: every path it was given counts as modified. */
    constructor (email: string, password: string, role: Role)
      ensures this.email == email && this.password == password && this.role == role
      ensures passwordModified
    {
      this.email := email;
      this.password := password;
      this.role := role;
      passwordModified := true;
    }

    /** The stored form of the document. */
    function Record(): (r: UserRecord)
      reads this
    {
      UserRecord(email, password, role)
    }

    /** `save`: schema validation first (email required and well formed,
        password required); then the pre-save hook hashes the password only
        if it was modified; then the dirty marks are cleared. */
    method Save(isEmail: string -> bool, hash: string -> string) returns (saved: bool)
      modifies this
      ensures saved <==> old(email) != "" && isEmail(old(email)) && old(password) != ""
      ensures email == old(email) && role == old(role)
      ensures !saved ==> password == old(password) && passwordModified == old(passwordModified)
      ensures saved && old(passwordModified) ==> password == hash(old(password))
      ensures saved && !old(passwordModified) ==> password == old(password)
      ensures saved ==> !passwordModified
    {
      if email == "" || !isEmail(email) || password == "" {
        return false;
      }
      if passwordModified {
        password := hash(password);
      }
      passwordModified := false;
      return true;
    }
  }
}
