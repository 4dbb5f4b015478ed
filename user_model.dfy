/** The User collection: src/models/user.model.ts. */
module UserModel {
  import opened Wrappers
  import opened OtpModel

  /** A user document (`IUser`); `password` holds the bcrypt hash. */
  datatype User = User(name: string, email: string, password: string, isVerified: bool)

  /**
   * The document the schema builds from the supplied paths: `isVerified`
   * takes its default, false, when it is not supplied.
   */
  function MakeUser(name: string, email: string, password: string, isVerified: Option<bool>): (u: User)
    ensures u.name == name && u.email == email && u.password == password
    ensures u.isVerified <==> isVerified == Some(true)
  {
    User(name, email, password, if isVerified.Some? then isVerified.value else false)
  }

  /**
   * The user both controllers create from a candidate: its fields copied, and
   * `isVerified` supplied as true.
   */
  function CommittedUser(t: TempUser): (u: User)
    ensures u.isVerified && u.name == t.name && u.email == t.email && u.password == t.password
  {
    MakeUser(t.name, t.email, t.password, Some(true))
  }

  /** Validation of the `required` paths: a required string may not be empty. */
  predicate ValidUserDocument(u: User)
  {
    u.name != "" && u.email != "" && u.password != ""
  }

  /** The unique index on `email`: every user sits under its own email, so there is at most one per email. */
  predicate UsersKeyedByEmail(users: map<string, User>)
  {
    forall e :: e in users ==> users[e].email == e
  }

  datatype CreateResult = Created(users: map<string, User>) | ValidationError | DuplicateKey

  /** `User.create(doc)`: validation first, then the insert under the unique email index. */
  function Create(users: map<string, User>, u: User): (r: CreateResult)
    ensures r.ValidationError? <==> !ValidUserDocument(u)
    ensures r.DuplicateKey? <==> ValidUserDocument(u) && u.email in users
    ensures r.Created? ==> u.email !in users && r.users.Keys == users.Keys + {u.email}
    ensures r.Created? ==> r.users[u.email] == u && forall e :: e in users ==> r.users[e] == users[e]
    ensures r.Created? && UsersKeyedByEmail(users) ==> UsersKeyedByEmail(r.users)
  {
    if !ValidUserDocument(u) then ValidationError
    else if u.email in users then DuplicateKey
    else Created(users[u.email := u])
  }
}
