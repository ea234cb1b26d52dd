/** Properties of the authentication flow that relate several requests. */
module AuthProperties {
  import opened Wrappers
  import opened PasswordHasher
  import opened CredentialStore
  import opened Guards
  import opened AuthService

  /** A record the lookup finds whose digest the password matches logs the
      client in as that record: its identifier and its current role go into
      the session, the client gets the cookie and the dashboard. */
  lemma LoginSucceeds(st: State, h: Hasher, username: string, password: string, u: User)
    requires FindOne(st.users, username) == Some(u)
    requires h.compare(password, u.passwordHash)
    ensures Login(st, h, username, password) ==
      Step(st.(session := Session(Some(u.id), Some(u.role)), cookieSet := true), Redirect(DASHBOARD_PATH))
  {
  }

  /** An unknown name and a wrong password cannot be told apart by the
      client: both leave the state as it was and answer with the login
      page. */
  lemma LoginFailuresAlike(st: State, h: Hasher, unknown: string, known: string, password: string, wrong: string)
    requires forall u :: u in st.users ==> u.username != unknown
    requires forall u :: u in st.users && u.username == known ==> !h.compare(wrong, u.passwordHash)
    ensures Login(st, h, unknown, password) == Login(st, h, known, wrong) == Step(st, Redirect(LOGIN_PATH))
  {
  }

  /** Registering a name nobody holds and then logging in with the same password
      logs the client in as the new record, with the default role, and the
      dashboard is then served. */
  lemma RegisterThenLogin(st: State, h: Hasher, username: string, password: string, salt: Salt)
    requires Sound(h) && NonEmptyDigests(h)
    requires username != ""
    requires forall u :: u in st.users ==> u.username != username
    ensures var registered := Register(st, h, username, password, salt).state;
      var r := Login(registered, h, username, password);
      && r.response == Redirect(DASHBOARD_PATH)
      && r.state.session == Session(Some(st.nextId), Some(DEFAULT_ROLE))
      && Dashboard(r.state.session) == Send(OK, WELCOME)
      && Admin(r.state.session) == Send(FORBIDDEN, ACCESS_DENIED)
  {
  }

  /** The role in the session is a copy taken at login. A user promoted to
      admin in the store while logged in is still refused /admin, and is let
      in once they log in again. The name is held by one record only, so
      which record the lookup returns is not in question. */
  lemma RoleIsSnapshotAtLogin(st: State, h: Hasher, username: string, password: string)
    requires forall u :: u in st.users && u.username == username ==> u.role == DEFAULT_ROLE
    requires forall v, w :: v in st.users && w in st.users && v.username == username && w.username == username ==> v == w
    requires Login(st, h, username, password).response == Redirect(DASHBOARD_PATH)
    ensures var loggedIn := Login(st, h, username, password).state;
      var id := loggedIn.session.userId.value;
      var promoted := loggedIn.(users := SetRole(loggedIn.users, id, ADMIN_ROLE));
      && Admin(promoted.session) == Send(FORBIDDEN, ACCESS_DENIED)
      && Login(promoted, h, username, password).response == Redirect(DASHBOARD_PATH)
      && Admin(Login(promoted, h, username, password).state.session) == Send(OK, ADMIN_PANEL)
  {
    var loggedIn := Login(st, h, username, password).state;
    var u := FindOne(st.users, username).value;
    assert loggedIn.session == Session(Some(u.id), Some(u.role));
    var promotedUsers := SetRole(loggedIn.users, u.id, ADMIN_ROLE);
    FindOneAfterSetRole(loggedIn.users, u.id, ADMIN_ROLE, username);
    assert FindOne(promotedUsers, username) == Some(u.(role := ADMIN_ROLE));
  }

  /** After a successful logout both protected pages send the client to log
      in; after a failed one the client keeps exactly the access it had. */
  lemma LogoutEndsAccess(st: State)
    ensures Dashboard(Logout(st, true).state.session) == Redirect(LOGIN_PATH)
    ensures Admin(Logout(st, true).state.session) == Redirect(LOGIN_PATH)
    ensures Dashboard(Logout(st, false).state.session) == Dashboard(st.session)
    ensures Admin(Logout(st, false).state.session) == Admin(st.session)
  {
  }

  /** A client that starts anonymous and sends no login request stays
      anonymous, whatever else it sends: every dashboard or admin request it
      makes is sent to the login page. */
  lemma {:induction false} NoLoginNoAccess(st: State, h: Hasher, reqs: seq<Request>)
    requires st.session == ANONYMOUS
    requires forall i :: 0 <= i < |reqs| ==> !reqs[i].PostLogin?
    ensures Run(st, h, reqs).state.session == ANONYMOUS
    ensures forall i :: 0 <= i < |reqs| && (reqs[i].GetDashboard? || reqs[i].GetAdmin?) ==>
      Run(st, h, reqs).responses[i] == Redirect(LOGIN_PATH)
    decreases |reqs|
  {
    if reqs != [] {
      var step := Handle(st, h, reqs[0]);
      assert step.state.session == ANONYMOUS;
      NoLoginNoAccess(step.state, h, reqs[1..]);
      var rest := Run(step.state, h, reqs[1..]);
      assert Run(st, h, reqs).responses == [step.response] + rest.responses;
      forall i | 0 <= i < |reqs| && (reqs[i].GetDashboard? || reqs[i].GetAdmin?)
        ensures Run(st, h, reqs).responses[i] == Redirect(LOGIN_PATH)
      {
        if i > 0 { assert reqs[1..][i - 1] == reqs[i]; }
      }
    }
  }

  /** A registration that passes validation appends exactly the record
      built from the request and advances the next identifier. */
  lemma RegisterAppends(st: State, h: Hasher, username: string, password: string, salt: Salt)
    requires username != "" && h.hash(password, salt) != ""
    ensures Register(st, h, username, password, salt) ==
      Step(st.(users := st.users + [User(st.nextId, username, h.hash(password, salt), DEFAULT_ROLE)],
               nextId := st.nextId + 1),
           Redirect(LOGIN_PATH))
  {
  }

  /** A sample session: alice registers and logs in and sees
      her dashboard; a wrong password is answered with the login page; bob,
      made admin in the store, logs in and reaches the admin panel, while
      alice is refused it. */
  lemma Walkthrough(h: Hasher, saltA: Salt, saltB: Salt)
    requires Sound(h) && NonEmptyDigests(h)
    requires !h.compare("wrong", h.hash("secret1", saltA))
    ensures var s1 := Register(Initial([]), h, "alice", "secret1", saltA).state;
      var alice := Login(s1, h, "alice", "secret1");
      var s2 := Register(alice.state, h, "bob", "pw", saltB).state;
      var s3 := s2.(users := SetRole(s2.users, 1, ADMIN_ROLE));
      var bob := Login(s3, h, "bob", "pw");
      && Dashboard(alice.state.session) == Send(OK, WELCOME)
      && Login(s1, h, "alice", "wrong") == Step(s1, Redirect(LOGIN_PATH))
      && Admin(bob.state.session) == Send(OK, ADMIN_PANEL)
      && Admin(alice.state.session) == Send(FORBIDDEN, ACCESS_DENIED)
  {
    var hashA := h.hash("secret1", saltA);
    var hashB := h.hash("pw", saltB);
    var aliceRecord := User(0, "alice", hashA, DEFAULT_ROLE);
    var bobRecord := User(1, "bob", hashB, DEFAULT_ROLE);
    var aliceSession := Session(Some(0), Some(DEFAULT_ROLE));

    var s0 := Initial([]);
    assert s0 == State([], 0, ANONYMOUS, false);
    RegisterAppends(s0, h, "alice", "secret1", saltA);
    var s1 := State([aliceRecord], 1, ANONYMOUS, false);
    assert Register(s0, h, "alice", "secret1", saltA).state == s1;

    FindOneAfterAppend([], aliceRecord);
    assert h.compare("secret1", hashA);
    LoginSucceeds(s1, h, "alice", "secret1", aliceRecord);
    var aliceIn := State([aliceRecord], 1, aliceSession, true);
    assert Login(s1, h, "alice", "secret1").state == aliceIn;
    LoginFailuresAlike(s1, h, "nobody", "alice", "wrong", "wrong");

    assert hashB != "";
    RegisterAppends(aliceIn, h, "bob", "pw", saltB);
    var s2 := State([aliceRecord, bobRecord], 2, aliceSession, true);
    assert Register(aliceIn, h, "bob", "pw", saltB).state == s2;

    var promotedBob := bobRecord.(role := ADMIN_ROLE);
    FindOneAfterSetRole(s2.users, 1, ADMIN_ROLE, "bob");
    FindOneAfterAppend([aliceRecord], bobRecord);
    var s3 := s2.(users := SetRole(s2.users, 1, ADMIN_ROLE));
    assert FindOne(s3.users, "bob") == Some(promotedBob);
    assert h.compare("pw", hashB);
    LoginSucceeds(s3, h, "bob", "pw", promotedBob);
  }
}
