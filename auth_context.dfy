/**
 * The client's session state (AuthContext): the current user, whether the
 * session is authenticated, whether it is still loading, and the 'user'
 * item in the browser's local storage. The mount effect restores a stored
 * session, login stores a new one, logout clears it; hasRole asks whether
 * the user holds any of a list of roles.
 *
 * JSON text is modelled by its parse result; an absent string field and an
 * empty one are both "" since the code only tests them for truthiness.
 */
module Auth {
  import opened Common

  /** The user object `{ username, email, roles, jwtToken }`; `roles` is None when it is not an array. */
  datatype SessionUser = SessionUser(username: string, email: string, roles: Option<seq<string>>, jwtToken: string)

  /** The stored 'user' item: the empty string, text that does not parse, or a parsed object. */
  datatype Stored = Blank | Unparsable | Parsed(user: SessionUser)

  /** The provider's state and its storage item (None when no item is stored). */
  datatype Session = Session(user: Option<SessionUser>, isAuthenticated: bool, isLoading: bool, stored: Option<Stored>)

  /** The state right after mounting, before the effect has run. */
  function Initial(stored: Option<Stored>): Session
  {
    Session(None, false, true, stored)
  }

  /** `required.some(role => roles.includes(role))`. */
  function AnyIncluded(required: seq<string>, roles: seq<string>): (r: bool)
    ensures r <==> exists i :: 0 <= i < |required| && required[i] in roles
    decreases |required|
  {
    if required == [] then false
    else if required[0] in roles then true
    else
      var rest := AnyIncluded(required[1..], roles);
      assert rest <==> exists i :: 1 <= i < |required| && required[i] in roles by {
        forall i | 1 <= i < |required| ensures required[i] == required[1..][i - 1] { }
      }
      rest
  }

  /** hasRole: false without a user or a roles array; otherwise whether some required role is held. */
  function HasRole(user: Option<SessionUser>, required: seq<string>): (r: bool)
    ensures user.None? || user.value.roles.None? ==> !r
    ensures required == [] ==> !r
    ensures r <==> (user.Some? && user.value.roles.Some? &&
                    exists i :: 0 <= i < |required| && required[i] in user.value.roles.value)
  {
    match user
    case None => false
    case Some(u) =>
      match u.roles
      case None => false
      case Some(roles) => AnyIncluded(required, roles)
  }

  /** The checks a stored user must pass: a token, a username and an array of roles. */
  predicate Acceptable(u: SessionUser)
  {
    u.jwtToken != "" && u.username != "" && u.roles.Some?
  }

  /**
   * The mount effect. No item (or an empty one) leaves the state as it is; an
   * acceptable parsed user becomes the authenticated user; anything else is
   * removed from storage and leaves the state unauthenticated. Loading ends
   * in every case.
   */
  function Restore(s: Session): (r: Session)
    ensures !r.isLoading
    ensures s.stored.None? || s.stored == Some(Blank) ==> r == s.(isLoading := false)
    ensures s.stored.Some? && s.stored.value.Parsed? && Acceptable(s.stored.value.user) ==>
      r == Session(Some(s.stored.value.user), true, false, s.stored)
    ensures s.stored.Some? && s.stored.value.Parsed? && !Acceptable(s.stored.value.user) ==>
      r == Session(None, false, false, None)
    ensures s.stored == Some(Unparsable) ==> r == Session(None, false, false, None)
    ensures r.isAuthenticated && !s.isAuthenticated ==> r.user.Some? && Acceptable(r.user.value)
  {
    match s.stored
    case None => s.(isLoading := false)
    case Some(Blank) => s.(isLoading := false)
    case Some(Unparsable) => Session(None, false, false, None)
    case Some(Parsed(u)) =>
      if Acceptable(u) then Session(Some(u), true, false, s.stored)
      else Session(None, false, false, None)
  }

  datatype LoginError = LoginFailed

  /**
   * login, given the backend's reply (None when the request or the reading
   * of its body throws): on success the user object is stored and the state
   * authenticated; on failure storage is cleared, the state unauthenticated
   * and the error rethrown. Loading ends in both cases.
   */
  function Login(s: Session, reply: Option<SessionUser>): (r: (Result<SessionUser, LoginError>, Session))
    ensures !r.1.isLoading
    ensures reply.Some? ==> r.0 == Success(reply.value) && r.1 == Session(reply, true, false, Some(Parsed(reply.value)))
    ensures reply.None? ==> r.0 == Failure(LoginFailed) && r.1 == Session(None, false, false, None)
  {
    match reply
    case Some(u) => (Success(u), Session(Some(u), true, false, Some(Parsed(u))))
    case None => (Failure(LoginFailed), Session(None, false, false, None))
  }

  /** logout: storage cleared, no user, unauthenticated. */
  function Logout(s: Session): (r: Session)
    ensures r.stored.None? && r.user.None? && !r.isAuthenticated
    ensures r.isLoading == s.isLoading
  {
    Session(None, false, s.isLoading, None)
  }

  /**
   * What login stores survives a reload exactly when it would pass the
   * restore checks: a reply lacking a token, a username or a roles array is
   * accepted by login but dropped by the next page load.
   */
  lemma {:induction false} LoginSurvivesReload(s: Session, u: SessionUser)
    ensures var after := Restore(Initial(Login(s, Some(u)).1.stored));
      && (Acceptable(u) ==> after.user == Some(u) && after.isAuthenticated)
      && (!Acceptable(u) ==> after.user.None? && !after.isAuthenticated && after.stored.None?)
  {
  }

  /** After logout a reload starts unauthenticated. */
  lemma LogoutSurvivesReload(s: Session)
    ensures var after := Restore(Initial(Logout(s).stored));
      after.user.None? && !after.isAuthenticated && !after.isLoading
  {
  }

  /** The provider, whose setters update these fields in place. */
  class AuthProvider {
    var user: Option<SessionUser>
    var isAuthenticated: bool
    var isLoading: bool
    var stored: Option<Stored>

    function Snapshot(): Session
      reads this
    {
      Session(user, isAuthenticated, isLoading, stored)
    }

    constructor (stored: Option<Stored>)
      ensures Snapshot() == Initial(stored)
    {
      user := None;
      isAuthenticated := false;
      isLoading := true;
      this.stored := stored;
    }

    /** The mount effect. */
    method RestoreSession()
      modifies this
      ensures Snapshot() == Restore(old(Snapshot()))
    {
      if stored.Some? && stored.value != Blank {
        match stored.value
        case Unparsable =>
          stored := None;
          user := None;
          isAuthenticated := false;
        case Parsed(parsed) =>
          if parsed.jwtToken != "" && parsed.username != "" && parsed.roles.Some? {
            user := Some(parsed);
            isAuthenticated := true;
          } else {
            stored := None;
            user := None;
            isAuthenticated := false;
          }
      }
      isLoading := false;
    }

    method LogIn(reply: Option<SessionUser>) returns (r: Result<SessionUser, LoginError>)
      modifies this
      ensures (r, Snapshot()) == Login(old(Snapshot()), reply)
    {
      isLoading := true;
      if reply.None? {
        stored := None;
        user := None;
        isAuthenticated := false;
        isLoading := false;
        return Failure(LoginFailed);
      }
      var userData := reply.value;
      stored := Some(Parsed(userData));
      user := Some(userData);
      isAuthenticated := true;
      isLoading := false;
      r := Success(userData);
    }

    method LogOut()
      modifies this
      ensures Snapshot() == Logout(old(Snapshot()))
    {
      stored := None;
      user := None;
      isAuthenticated := false;
    }

    function HasRoleNow(required: seq<string>): (r: bool)
      reads this
      ensures r == HasRole(user, required)
    {
      HasRole(user, required)
    }
  }
}
