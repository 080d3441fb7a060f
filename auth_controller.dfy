/**
 * The login controller: any non-blank username signs in (no password is
 * read), the role is derived from the username alone, the user record is
 * created on first login and has its last-login time refreshed after that,
 * and the session remembers the user.
 */
module AuthController {
  import opened Common
  import opened Models
  import opened Store

  /** The role login grants: `manager` for exactly the username `admin`
      (compared case-sensitively), `helper` for every other name. */
  function RoleFor(username: string): (role: string)
    ensures role == MANAGER <==> username == "admin"
    ensures role == HELPER <==> username != "admin"
  {
    if username == "admin" then MANAGER else HELPER
  }

  /** The comparison is case-sensitive: `Admin` is a helper. */
  lemma CapitalisedAdminIsHelper()
    ensures RoleFor("Admin") == HELPER
  {
    assert "Admin"[0] != "admin"[0];
  }

  /** `!username || username.trim() === ''`. */
  predicate UsernameMissing(username: Option<string>)
  {
    username.None? || username.value == "" || Trim(username.value) == ""
  }

  /** `login`. The request body's username is `None` when absent. */
  method Login(db: Database, session: Session, username: Option<string>, now: Time)
    returns (r: Reply<SessionUser>, session': Session)
    requires db.Valid()
    modifies db
    ensures db.Valid()
    ensures db.needs == old(db.needs) && db.basket == old(db.basket)
    ensures db.transactions == old(db.transactions) && db.nextId == old(db.nextId)
    ensures r.Err? <==> username.None? || IsBlank(username.value)
    ensures r.Err? ==> r == Err(BAD_REQUEST, "Username is required") && session' == session
                       && db.users == old(db.users)
    ensures r.Ok? ==>
              var u := username.value;
              && r == Ok(OK, SessionUser(u, RoleFor(u)))
              && session' == SignedIn(SessionUser(u, RoleFor(u)))
              && db.users == old(db.users)[u := if u in old(db.users) then old(db.users)[u].(lastLogin := now)
                                                else User(u, RoleFor(u), now)]
  {
    if username.Some? {
      TrimEmptyIffBlank(username.value);
    }
    if UsernameMissing(username) {
      return Err(BAD_REQUEST, "Username is required"), session;
    }
    var u := username.value;
    var role := RoleFor(u);
    db.SaveLogin(u, role, now);
    session' := SignedIn(SessionUser(u, role));
    r := Ok(OK, SessionUser(u, role));
  }

  /** Logging in again never adds a second record: the user map gains at
      most the one key, and an existing record keeps its stored role. */
  lemma LoginKeepsOneRecord(users: map<string, User>, u: string, now: Time)
    requires u in users
    ensures var users' := users[u := users[u].(lastLogin := now)];
      users'.Keys == users.Keys && users'[u].role == users[u].role && users'[u].username == users[u].username
  {
  }

  /** `logout`: the session is destroyed. */
  function Logout(session: Session): (r: (Reply<string>, Session))
    ensures r.0.Ok? && GetCurrentUser(r.1) == Err(UNAUTHORIZED, "Not authenticated")
  {
    (Ok(OK, "Logout successful"), Anonymous)
  }

  /** `getCurrentUser`. */
  function GetCurrentUser(session: Session): (r: Reply<SessionUser>)
    ensures r.Ok? <==> session.SignedIn?
    ensures r.Ok? ==> r == Ok(OK, session.user)
    ensures r.Err? ==> r == Err(UNAUTHORIZED, "Not authenticated")
  {
    match session
    case SignedIn(user) => Ok(OK, user)
    case Anonymous => Err(UNAUTHORIZED, "Not authenticated")
  }
}
