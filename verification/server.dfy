/** The running application: the user collection and one client's session,
    updated in place by the request handlers. */
module Server {
  import opened Wrappers
  import opened PasswordHasher
  import opened CredentialStore
  import opened Guards
  import opened AuthService

  class App {
    const hasher: Hasher
    var users: seq<User>
    var nextId: UserId
    var session: Session
    var cookieSet: bool

    /** The application state as a value, for the transition functions. */
    function Snapshot(): State
      reads this
    {
      State(users, nextId, session, cookieSet)
    }

    ghost predicate Valid()
      reads this
    {
      AuthService.Valid(Snapshot())
    }

    /** Start-up: the collection the database already holds, and a client
        with no session, as `Initial` describes. */
    constructor (hasher: Hasher, stored: seq<User>)
      requires DistinctIds(stored)
      requires forall i :: 0 <= i < |stored| ==> Storable(stored[i])
      ensures Valid()
      ensures Snapshot() == Initial(stored)
      ensures this.hasher == hasher && users == stored && session == ANONYMOUS && !cookieSet
    {
      this.hasher := hasher;
      users := stored;
      nextId := NextFreeId(stored);
      session := ANONYMOUS;
      cookieSet := false;
    }

    /** POST /register, as the transition `Register` describes. */
    method PostRegister(username: string, password: string, salt: Salt) returns (res: Response)
      requires Valid()
      modifies this
      ensures Valid()
      ensures Step(Snapshot(), res) == Register(old(Snapshot()), hasher, username, password, salt)
      ensures session == old(session) && cookieSet == old(cookieSet)
      ensures res == Redirect(LOGIN_PATH) ==>
        users == old(users) + [User(old(nextId), username, hasher.hash(password, salt), DEFAULT_ROLE)]
      ensures res != Redirect(LOGIN_PATH) ==> users == old(users) && res.Unhandled?
    {
      var hashed := hasher.hash(password, salt);
      var user := User(nextId, username, hashed, DEFAULT_ROLE);
      if !Storable(user) {
        res := Unhandled("ValidationError");
        return;
      }
      users := users + [user];
      nextId := nextId + 1;
      res := Redirect(LOGIN_PATH);
    }

    /** POST /login, as the transition `Login` describes: on success the
        session's two fields are written one after the other. */
    method PostLogin(username: string, password: string) returns (res: Response)
      requires Valid()
      modifies this
      ensures Valid()
      ensures Step(Snapshot(), res) == Login(old(Snapshot()), hasher, username, password)
      ensures users == old(users) && nextId == old(nextId)
      ensures res == Redirect(LOGIN_PATH) ==> session == old(session) && cookieSet == old(cookieSet)
      ensures res == Redirect(DASHBOARD_PATH) ==>
        exists u :: u in users && u.username == username && session == Session(Some(u.id), Some(u.role))
    {
      var found := FindOne(users, username);
      if found.Some? && hasher.compare(password, found.value.passwordHash) {
        session := session.(userId := Some(found.value.id));
        session := session.(userRole := Some(found.value.role));
        cookieSet := true;
        res := Redirect(DASHBOARD_PATH);
      } else {
        res := Redirect(LOGIN_PATH);
      }
    }

    /** POST /logout, as the transition `Logout` describes; `destroyed` is
        the session store's outcome. */
    method PostLogout(destroyed: bool) returns (res: Response)
      requires Valid()
      modifies this
      ensures Valid()
      ensures Step(Snapshot(), res) == Logout(old(Snapshot()), destroyed)
      ensures destroyed ==> session == ANONYMOUS && !cookieSet && res == Redirect(LOGIN_PATH)
      ensures !destroyed ==> session == old(session) && cookieSet == old(cookieSet) && res == Redirect(DASHBOARD_PATH)
      ensures users == old(users) && nextId == old(nextId)
    {
      if !destroyed {
        res := Redirect(DASHBOARD_PATH);
        return;
      }
      session := ANONYMOUS;
      cookieSet := false;
      res := Redirect(LOGIN_PATH);
    }
  }
}
