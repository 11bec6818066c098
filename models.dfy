/** The user record the authentication core reads and updates, and the store that holds it. */
module Models {
  import opened Wrappers
  import opened Tokens

  /** The role column's server default. */
  const DEFAULT_ROLE: string := "user"

  /** The fields of a user row that the authentication core uses. */
  datatype User = User(uid: string, role: string, isVerified: bool, passwordHash: string)

  /** The user store, keyed by email. */
  type Users = map<Email, User>

  /** A freshly created account: default role, not yet verified. */
  function NewUser(uid: string, passwordHash: string): (u: User)
    ensures u.role == DEFAULT_ROLE && !u.isVerified
    ensures u.uid == uid && u.passwordHash == passwordHash
  {
    User(uid, DEFAULT_ROLE, false, passwordHash)
  }

  /** The lookup by email that every flow performs; an absent account is None. */
  function FindUser(users: Users, email: Email): (r: Option<User>)
    ensures r.Some? <==> email in users
    ensures r.Some? ==> r.value == users[email]
  {
    if email in users then Some(users[email]) else None
  }

  /** The database table of users, updated in place by the account flows. */
  class UserStore {
    var users: Users

    constructor (initial: Users)
      ensures users == initial
    {
      users := initial;
    }
  }
}
