/** The hard-coded user table both servers keep in memory, and `users.find` on it. */
module Users {
  import opened Js

  /** A user record; `passwordHash` is the bcrypt hash computed when the server starts. */
  datatype User = User(id: nat, email: string, passwordHash: string)

  const AdminEmail := "admin@just-law.tech"

  /** The table of both servers: the single administrator, with the hash of its password. */
  function Table(adminHash: string): seq<User> {
    [User(1, AdminEmail, adminHash)]
  }

  /** Entry `i` is the first in `users` with this email. */
  predicate FirstMatch(users: seq<User>, email: string, i: int) {
    0 <= i < |users| && users[i].email == email && forall j :: 0 <= j < i ==> users[j].email != email
  }

  /** `users.find(u => u.email === email)`: the first user with exactly this email, if any. */
  function FindUser(users: seq<User>, email: string): (r: Option<User>)
    ensures r.None? <==> forall i :: 0 <= i < |users| ==> users[i].email != email
    ensures r.Some? ==> exists i :: FirstMatch(users, email, i) && users[i] == r.value
  {
    if users == [] then None
    else if users[0].email == email then (assert FirstMatch(users, email, 0); Some(users[0]))
    else
      var r := FindUser(users[1..], email);
      if r.None? then r else FindLater(users, email, r.value); r
  }

  /** A first match in the tail, behind a head that does not match, is a first match of the whole. */
  lemma FindLater(users: seq<User>, email: string, u: User)
    requires users != [] && users[0].email != email
    requires exists i :: FirstMatch(users[1..], email, i) && users[1..][i] == u
    ensures exists i :: FirstMatch(users, email, i) && users[i] == u
  {
    var i :| FirstMatch(users[1..], email, i) && users[1..][i] == u;
    forall j | 0 <= j < i + 1 ensures users[j].email != email {
      if j > 0 {
        assert users[j] == users[1..][j - 1];
      }
    }
    assert FirstMatch(users, email, i + 1) && users[i + 1] == u;
  }

  /** In the servers' table only the administrator's exact address is found. */
  lemma FindInTable(adminHash: string, email: string)
    ensures FindUser(Table(adminHash), email) == if email == AdminEmail then Some(User(1, AdminEmail, adminHash)) else None
  {
  }
}
