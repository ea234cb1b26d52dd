/** The register, login and logout handlers as transitions of the whole
    application state, the router that dispatches requests one at a time,
    and the properties of the flow. */
module AuthService {
  import opened Wrappers
  import opened PasswordHasher
  import opened CredentialStore
  import opened Guards

  /** The user collection, the next identifier the store hands out, one
      client's session, and whether that client holds the session cookie. */
  datatype State = State(users: seq<User>, nextId: UserId, session: Session, cookieSet: bool)

  /** A handler's effect: the state after the request and the answer sent. */
  datatype Step = Step(state: State, response: Response)

  /** The application's invariant: identifiers are distinct and all below
      the next one to be handed out, every record passed schema
      validation, the session holds both fields or neither, the client holds
      the cookie exactly when the session is logged in, and a logged-in
      session names a user of the store. */
  ghost predicate Valid(st: State)
  {
    && DistinctIds(st.users)
    && (forall i :: 0 <= i < |st.users| ==> st.users[i].id < st.nextId && Storable(st.users[i]))
    && (st.session.userId.Some? <==> st.session.userRole.Some?)
    && (st.cookieSet <==> st.session.userId.Some?)
    && (st.session.userId.Some? ==> exists u :: u in st.users && u.id == st.session.userId.value)
  }

  /** Start-up: the collection holds whatever records the database already
      has (each with its own identifier and valid under the schema), and the
      in-memory session store is empty, so the client is anonymous and holds
      no cookie. */
  function Initial(stored: seq<User>): (st: State)
    requires DistinctIds(stored)
    requires forall i :: 0 <= i < |stored| ==> Storable(stored[i])
    ensures st.users == stored && st.session == ANONYMOUS && !st.cookieSet
    ensures Valid(st)
  {
    State(stored, NextFreeId(stored), ANONYMOUS, false)
  }

  /** POST /register: hash the password, build a record with the default
      role and save it, then send the client to the login page. Nothing is
      checked about existing names, so success depends only on the schema
      validation of the new record; when validation fails the error escapes
      the handler and nothing is stored; under Express 4 no answer is sent,
      which the response `Unhandled` records. */
  function Register(st: State, h: Hasher, username: string, password: string, salt: Salt): (r: Step)
    ensures r.state.session == st.session && r.state.cookieSet == st.cookieSet
    ensures r.response == Redirect(LOGIN_PATH) <==> username != "" && h.hash(password, salt) != ""
    ensures r.response != Redirect(LOGIN_PATH) ==> r.state == st && r.response.Unhandled?
    ensures r.response == Redirect(LOGIN_PATH) ==>
      && |r.state.users| == |st.users| + 1
      && r.state.users[..|st.users|] == st.users
      && r.state.users[|st.users|].id == st.nextId
      && r.state.users[|st.users|].username == username
      && r.state.users[|st.users|].passwordHash == h.hash(password, salt)
      && r.state.users[|st.users|].role == DEFAULT_ROLE
      && r.state.nextId == st.nextId + 1
    ensures Valid(st) ==> Valid(r.state)
  {
    var hashed := h.hash(password, salt);
    var user := User(st.nextId, username, hashed, DEFAULT_ROLE);
    if Storable(user) then
      var st' := st.(users := st.users + [user], nextId := st.nextId + 1);
      assert st'.users[..|st.users|] == st.users;
      Step(st', Redirect(LOGIN_PATH))
    else
      Step(st, Unhandled("ValidationError"))
  }

  /** POST /login: look the name up; if a record is found and the password
      matches its digest, record the user's identifier and current role in
      the session and go to the dashboard, otherwise go back to the login
      page with nothing changed. An unknown name and a wrong password are
      answered alike. */
  function Login(st: State, h: Hasher, username: string, password: string): (r: Step)
    ensures r.response == Redirect(DASHBOARD_PATH) || r.response == Redirect(LOGIN_PATH)
    ensures r.response == Redirect(LOGIN_PATH) ==> r.state == st
    ensures r.response == Redirect(DASHBOARD_PATH) ==>
      && r.state.users == st.users && r.state.nextId == st.nextId && r.state.cookieSet
      && exists u :: u in st.users && u.username == username && h.compare(password, u.passwordHash)
                     && r.state.session == Session(Some(u.id), Some(u.role))
    ensures (forall u :: u in st.users ==> u.username != username) ==> r.response == Redirect(LOGIN_PATH)
    ensures (forall u :: u in st.users && u.username == username ==> !h.compare(password, u.passwordHash))
            ==> r.response == Redirect(LOGIN_PATH)
    ensures Valid(st) ==> Valid(r.state)
  {
    var found := FindOne(st.users, username);
    if found.Some? && h.compare(password, found.value.passwordHash) then
      var session := st.session.(userId := Some(found.value.id)).(userRole := Some(found.value.role));
      Step(st.(session := session, cookieSet := true), Redirect(DASHBOARD_PATH))
    else
      Step(st, Redirect(LOGIN_PATH))
  }

  /** POST /logout: when the session store destroys the session, the client
      becomes anonymous, loses its cookie and is sent to log in; when
      destruction fails, nothing changes and the client goes back to the
      dashboard. `destroyed` is the store's outcome. */
  function Logout(st: State, destroyed: bool): (r: Step)
    ensures r.state.users == st.users && r.state.nextId == st.nextId
    ensures destroyed ==> r.state.session == ANONYMOUS && !r.state.cookieSet && r.response == Redirect(LOGIN_PATH)
    ensures !destroyed ==> r.state == st && r.response == Redirect(DASHBOARD_PATH)
    ensures Valid(st) ==> Valid(r.state)
  {
    if !destroyed then Step(st, Redirect(DASHBOARD_PATH))
    else Step(st.(session := ANONYMOUS, cookieSet := false), Redirect(LOGIN_PATH))
  }

  /** The requests the application serves. The salt and the outcome of
      session destruction are chosen by the environment and travel with the
      request. */
  datatype Request =
    | PostRegister(username: string, password: string, salt: Salt)
    | PostLogin(username: string, password: string)
    | GetDashboard
    | GetAdmin
    | PostLogout(destroyed: bool)

  /** The router. Only register writes the store, only login and logout
      write the session, and the guarded pages change nothing. */
  function Handle(st: State, h: Hasher, req: Request): (r: Step)
    ensures r.state.users != st.users ==> req.PostRegister?
    ensures r.state.nextId != st.nextId ==> req.PostRegister?
    ensures r.state.session != st.session ==> req.PostLogin? || req.PostLogout?
    ensures r.state.cookieSet != st.cookieSet ==> req.PostLogin? || req.PostLogout?
    ensures req.GetDashboard? || req.GetAdmin? ==> r.state == st
    ensures Valid(st) ==> Valid(r.state)
  {
    match req
    case PostRegister(username, password, salt) => Register(st, h, username, password, salt)
    case PostLogin(username, password) => Login(st, h, username, password)
    case GetDashboard => Step(st, Dashboard(st.session))
    case GetAdmin => Step(st, Admin(st.session))
    case PostLogout(destroyed) => Logout(st, destroyed)
  }

  /** The answers sent to a sequence of requests and the state after it. */
  datatype Trace = Trace(state: State, responses: seq<Response>)

  /** Requests served one after another, each to completion before the
      next. Each request has exactly one entry in `responses`, in order, and
      records are only ever added, never removed or reordered. */
  function Run(st: State, h: Hasher, reqs: seq<Request>): (r: Trace)
    ensures |r.responses| == |reqs|
    ensures |st.users| <= |r.state.users| && r.state.users[..|st.users|] == st.users
    ensures Valid(st) ==> Valid(r.state)
    decreases |reqs|
  {
    if reqs == [] then Trace(st, [])
    else
      var step := Handle(st, h, reqs[0]);
      var rest := Run(step.state, h, reqs[1..]);
      Trace(rest.state, [step.response] + rest.responses)
  }

  /** The i-th answer of a run is the answer to the i-th request, served in
      the state the requests before it left. */
  lemma {:induction false} RunStepwise(st: State, h: Hasher, reqs: seq<Request>, i: nat)
    requires i < |reqs|
    ensures Run(st, h, reqs).responses[i] == Handle(Run(st, h, reqs[..i]).state, h, reqs[i]).response
    decreases i
  {
    var step := Handle(st, h, reqs[0]);
    if i > 0 {
      RunStepwise(step.state, h, reqs[1..], i - 1);
      assert reqs[..i][0] == reqs[0];
      assert reqs[..i][1..] == reqs[1..][..i - 1];
      assert reqs[1..][i - 1] == reqs[i];
    }
  }
}
