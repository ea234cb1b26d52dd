/** Session state, responses, the two access guards and the protected routes
    that chain them. */
module Guards {
  import opened Wrappers
  import opened CredentialStore

  const LOGIN_PATH: string := "/login"
  const DASHBOARD_PATH: string := "/dashboard"
  const ADMIN_ROLE: string := "admin"
  const FORBIDDEN: nat := 403
  const OK: nat := 200
  const ACCESS_DENIED: string := "Access Denied"
  const WELCOME: string := "Welcome to your dashboard"
  const ADMIN_PANEL: string := "Admin Panel"

  /** The per-client session object: the user's identifier and the role
      copied from the user record at login. Both are absent until login. */
  datatype Session = Session(userId: Option<UserId>, userRole: Option<string>)

  /** A fresh client's session, and the state logout returns to. */
  const ANONYMOUS: Session := Session(None, None)

  /** What a handler answers: a redirect, a status with a body, or an error
      the handler lets escape, in which case no answer is sent. */
  datatype Response =
    | Redirect(location: string)
    | Send(status: nat, body: string)
    | Unhandled(reason: string)

  /** A guard either hands the request on (`next()`) or answers it itself. */
  datatype Verdict = Next | Halt(response: Response)

  /** `requireAuth`: only a session holding a user identifier gets through;
      any other is sent to the login page. */
  function RequireAuth(s: Session): (v: Verdict)
    ensures v.Next? <==> s.userId.Some?
    ensures v.Halt? ==> v.response == Redirect(LOGIN_PATH)
  {
    if s.userId.None? then Halt(Redirect(LOGIN_PATH)) else Next
  }

  /** `requireAdmin`: only a session whose role is exactly "admin" gets
      through; any other role, and an absent one, is refused with 403. */
  function RequireAdmin(s: Session): (v: Verdict)
    ensures v.Next? <==> s.userRole == Some(ADMIN_ROLE)
    ensures v.Halt? ==> v.response == Send(FORBIDDEN, ACCESS_DENIED)
  {
    if s.userRole != Some(ADMIN_ROLE) then Halt(Send(FORBIDDEN, ACCESS_DENIED)) else Next
  }

  /** The two middleware functions, as entries of a route's chain. */
  datatype Guard = AuthGuard | AdminGuard

  /** The verdict of one guard of a chain on a session. */
  function Check(g: Guard, s: Session): Verdict
  {
    match g
    case AuthGuard => RequireAuth(s)
    case AdminGuard => RequireAdmin(s)
  }

  /** Every guard of the chain hands the request on. */
  predicate AllPass(chain: seq<Guard>, s: Session)
  {
    forall i :: 0 <= i < |chain| ==> Check(chain[i], s).Next?
  }

  /** The middleware pipeline of a route: guards run in order, the first one
      that answers ends the request, and the handler runs only when every
      guard handed on. */
  function RunChain(chain: seq<Guard>, s: Session, handler: Response): (r: Response)
    ensures AllPass(chain, s) ==> r == handler
    ensures !AllPass(chain, s) ==>
      exists i :: 0 <= i < |chain| && Check(chain[i], s) == Halt(r) && AllPass(chain[..i], s)
    decreases |chain|
  {
    if chain == [] then handler
    else
      match Check(chain[0], s)
      case Halt(answer) =>
        assert AllPass(chain[..0], s);
        answer
      case Next =>
        var r := RunChain(chain[1..], s, handler);
        assert AllPass(chain, s) <==> AllPass(chain[1..], s) by {
          if AllPass(chain[1..], s) {
            forall i | 0 <= i < |chain| ensures Check(chain[i], s).Next? {
              if i > 0 { assert chain[i] == chain[1..][i - 1]; }
            }
          }
        }
        if AllPass(chain[1..], s) then r
        else
          var j :| 0 <= j < |chain[1..]| && Check(chain[1..][j], s) == Halt(r) && AllPass(chain[1..][..j], s);
          assert chain[1..][j] == chain[j + 1];
          assert forall k :: 0 <= k < j + 1 ==> chain[..j + 1][k] == chain[k];
          assert forall k :: 1 <= k < j + 1 ==> chain[k] == chain[1..][..j][k - 1];
          assert AllPass(chain[..j + 1], s);
          r
  }

  const DASHBOARD_CHAIN: seq<Guard> := [AuthGuard]
  const ADMIN_CHAIN: seq<Guard> := [AuthGuard, AdminGuard]

  /** GET /dashboard: the welcome text for a logged-in session, the login
      page for any other. */
  function Dashboard(s: Session): (r: Response)
    ensures r == Send(OK, WELCOME) <==> s.userId.Some?
    ensures s.userId.None? ==> r == Redirect(LOGIN_PATH)
  {
    RunChain(DASHBOARD_CHAIN, s, Send(OK, WELCOME))
  }

  /** GET /admin: authentication is checked before the role, so an anonymous
      client is sent to log in and never sees 403; a logged-in non-admin gets
      403; only an admin session reaches the panel. */
  function Admin(s: Session): (r: Response)
    ensures s.userId.None? ==> r == Redirect(LOGIN_PATH)
    ensures s.userId.Some? && s.userRole != Some(ADMIN_ROLE) ==> r == Send(FORBIDDEN, ACCESS_DENIED)
    ensures r == Send(OK, ADMIN_PANEL) <==> s.userId.Some? && s.userRole == Some(ADMIN_ROLE)
  {
    RunChain(ADMIN_CHAIN, s, Send(OK, ADMIN_PANEL))
  }

  /** The order of the admin chain is what keeps 403 away from anonymous
      clients: with the guards swapped, a client with no session at all
      would be answered 403 instead of being sent to log in. */
  lemma AdminGuardOrderMatters(handler: Response)
    ensures Admin(ANONYMOUS) == Redirect(LOGIN_PATH)
    ensures RunChain([AdminGuard, AuthGuard], ANONYMOUS, handler) == Send(FORBIDDEN, ACCESS_DENIED)
  {
  }
}
