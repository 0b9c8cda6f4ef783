/** Values shared by the navigation sidebar and the dashboard: the signed-in
    user record and the browser-side store that keeps it between page loads. */
module Accounts {

  datatype Option<+T> = None | Some(value: T)

  /** A user record as the authentication service returns it. A record whose
      `roles` field is missing is represented with an empty role list. */
  datatype User = User(id: int, username: string, email: string, createdAt: Option<string>, roles: seq<string>)

  /** The stored signed-in user: present after a login, absent after a logout. */
  class SessionStore {
    var user: Option<User>

    constructor (initial: Option<User>)
      ensures user == initial
    {
      user := initial;
    }

    /** Removes the stored user; removing an absent user changes nothing. */
    method RemoveUser()
      modifies this
      ensures user == None
    {
      user := None;
    }
  }
}
