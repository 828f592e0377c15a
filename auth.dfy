/** The authentication helpers: the user record and its role enum, the role
    check every guard uses, the soft-failing resolution of an
    `Authorization` header to a user, and the pre-save rule that hashes a
    password only when it was modified. Signature verification and hashing
    belong to foreign libraries and enter as function parameters. */
module Auth {
  import opened Wrappers
  import opened Strings

  /** An opaque storage identifier (a document id). */
  type Id = string

  datatype Role = ADMIN | EMPLOYEE

  /** The role a user gets when none is given. */
  const DefaultRole: Role := EMPLOYEE

  /** A stored user; `password` is always a digest, never the clear text. */
  datatype User = User(
    id: Id,
    username: string,
    password: string,
    email: string,
    name: string,
    role: Role,
    employeeId: Option<Id>)

  /** `checkRole(user, requiredRoles)`: an absent user never passes; an absent
      or empty role list passes every present user; otherwise the user's role
      must be listed. */
  function CheckRole(user: Option<User>, requiredRoles: Option<seq<Role>>): (ok: bool)
    ensures user.None? ==> !ok
    ensures user.Some? && (requiredRoles.None? || requiredRoles.value == []) ==> ok
    ensures user.Some? && requiredRoles.Some? && requiredRoles.value != [] ==>
              (ok <==> user.value.role in requiredRoles.value)
  {
    if user.None? then false
    else if requiredRoles.None? || |requiredRoles.value| == 0 then true
    else user.value.role in requiredRoles.value
  }

  /** Widening the list of accepted roles never rejects a user that passed. */
  lemma CheckRoleMonotone(user: Option<User>, roles: seq<Role>, more: seq<Role>)
    requires CheckRole(user, Some(roles))
    requires roles != [] && forall r :: r in roles ==> r in more
    ensures CheckRole(user, Some(more))
  {
  }

  const BearerPrefix: string := "Bearer "

  /** The token carried by an `Authorization` header: what follows the exact
      prefix "Bearer ", or the empty string when the header is missing or
      does not start with that prefix. */
  function ExtractToken(authorization: Option<string>): (token: string)
    ensures authorization.Some? && StartsWith(authorization.value, BearerPrefix) ==>
              BearerPrefix + token == authorization.value
    ensures authorization.None? || !StartsWith(authorization.value, BearerPrefix) ==> token == ""
  {
    var header := authorization.GetOr("");
    if StartsWith(header, BearerPrefix) then header[|BearerPrefix|..] else ""
  }

  /** The header a client sends for a token is read back as that token. */
  lemma BearerRoundTrip(token: string)
    ensures ExtractToken(Some(BearerPrefix + token)) == token
  {
    assert (BearerPrefix + token)[..|BearerPrefix|] == BearerPrefix;
  }

  /** `User.findOne(query)`: the first stored user the query selects. */
  function FindUser(users: seq<User>, selects: User -> bool): (r: Option<User>)
    ensures r.Some? ==> r.value in users && selects(r.value)
    ensures r.None? ==> forall u :: u in users ==> !selects(u)
  {
    if users == [] then None
    else if selects(users[0]) then Some(users[0])
    else FindUser(users[1..], selects)
  }

  /** `User.findById`: the first stored user with that id. */
  function FindById(users: seq<User>, id: Id): (r: Option<User>)
    ensures r.Some? ==> r.value in users && r.value.id == id
    ensures r.None? ==> forall u :: u in users ==> u.id != id
  {
    FindUser(users, (u: User) => u.id == id)
  }

  /** `authenticate(req)`: the user named by a verifiable bearer token, or
      None; every failure (no token, bad token, unknown user) is absorbed.
      `verify` stands for the signature check and yields the token's userId,
      or None where the library would throw. */
  function Authenticate(authorization: Option<string>, verify: string -> Option<Id>, users: seq<User>): (r: Option<User>)
    ensures r.Some? ==> r.value in users
    ensures r.Some? ==>
              var token := ExtractToken(authorization);
              token != "" && verify(token) == Some(r.value.id)
    ensures ExtractToken(authorization) == "" ==> r.None?
    ensures ExtractToken(authorization) != "" && verify(ExtractToken(authorization)).None? ==> r.None?
    ensures var token := ExtractToken(authorization);
            token != "" && verify(token).Some? && (forall u :: u in users ==> u.id != verify(token).value) ==> r.None?
  {
    var token := ExtractToken(authorization);
    if token == "" then None
    else
      match verify(token)
      case None => None
      case Some(userId) => FindById(users, userId)
  }

  /** A token issued for a stored user, sent back as a bearer header,
      resolves to a user with that id. */
  lemma TokenRoundTrip(u: User, users: seq<User>, token: string, verify: string -> Option<Id>)
    requires u in users
    requires token != "" && verify(token) == Some(u.id)
    ensures Authenticate(Some(BearerPrefix + token), verify, users).Some?
    ensures Authenticate(Some(BearerPrefix + token), verify, users).value.id == u.id
  {
    BearerRoundTrip(token);
  }

  /** The stored password after the pre-save hook: re-hashed only when modified. */
  function DigestOnSave(password: string, modified: bool, hash: string -> string): string {
    if modified then hash(password) else password
  }

  /** Saving twice with no password change in between hashes the password once. */
  lemma HashedOnce(plain: string, hash: string -> string)
    ensures DigestOnSave(DigestOnSave(plain, true, hash), false, hash) == hash(plain)
  {
  }

  /** A user document with the modification flag the save hook consults. */
  class UserDocument {
    const id: Id
    var username: string
    var password: string
    var email: string
    var name: string
    var role: Role
    var employeeId: Option<Id>
    var passwordModified: bool

    /** A new document: the role defaults to EMPLOYEE, and the supplied
        password counts as modified, so the first save hashes it. */
    constructor Create(id: Id, username: string, password: string, email: string, name: string, role: Option<Role>)
      ensures this.id == id && this.username == username && this.password == password
      ensures this.email == email && this.name == name && this.employeeId == None
      ensures this.role == role.GetOr(DefaultRole)
      ensures passwordModified
    {
      this.id := id;
      this.username := username;
      this.password := password;
      this.email := email;
      this.name := name;
      this.role := role.GetOr(DefaultRole);
      this.employeeId := None;
      this.passwordModified := true;
    }

    function Record(): (u: User)
      reads this
      ensures u.id == id && u.password == password && u.role == role
    {
      User(id, username, password, email, name, role, employeeId)
    }

    method SetPassword(p: string)
      modifies this
      ensures password == p && passwordModified
      ensures username == old(username) && email == old(email) && name == old(name)
      ensures role == old(role) && employeeId == old(employeeId)
    {
      password := p;
      passwordModified := true;
    }

    method SetRole(r: Role)
      modifies this
      ensures role == r && Record() == old(Record()).(role := r)
      ensures passwordModified == old(passwordModified)
    {
      role := r;
    }

    /** The `pre('save')` hook: replaces the password by its digest only when
        the password was modified; no other field changes. */
    method PreSave(hash: string -> string)
      modifies this
      ensures password == DigestOnSave(old(password), old(passwordModified), hash)
      ensures !old(passwordModified) ==> password == old(password)
      ensures Record() == old(Record()).(password := password)
      ensures passwordModified == old(passwordModified)
    {
      if passwordModified {
        password := hash(password);
      }
    }

    /** A save: the hook runs, the record is persisted, and the document is clean again. */
    method Save(hash: string -> string) returns (stored: User)
      modifies this
      ensures stored == old(Record()).(password := DigestOnSave(old(password), old(passwordModified), hash))
      ensures stored == Record() && !passwordModified
    {
      PreSave(hash);
      passwordModified := false;
      stored := Record();
    }
  }
}
