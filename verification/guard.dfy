/** The request route guard: for each request it refreshes the session and
    either lets the request through or redirects it, to `/sign-in` when the
    caller is not signed in (or has no profile) and to `/dashboard` when a
    non-landlord asks for the listing-creation page. Any exception on the way
    lets the request through. */
module RouteGuard {
  import opened Strings
  import opened Backend

  /** Paths under this prefix require a signed-in user with a profile. */
  const ProtectedPrefix := "/dashboard"
  /** The one path that additionally requires the landlord role. */
  const LandlordOnlyPath := "/dashboard/new"
  const LandlordRole := "landlord"

  /** Where a redirect points. */
  datatype Target = SignIn | Dashboard

  function TargetPath(t: Target): string {
    match t
    case SignIn => "/sign-in"
    case Dashboard => "/dashboard"
  }

  /** Which response object a pass-through hands on: the session response,
      which carries any cookies the session refresh set, or the fresh
      response built in the exception handler, which carries none. */
  datatype PassVia = SessionResponse | FallbackResponse

  datatype Outcome = Pass(via: PassVia) | Redirect(target: Target)

  predicate Protected(path: string) {
    StartsWith(path, ProtectedPrefix)
  }

  predicate IsLandlord(p: Profile) {
    p.role == Some(LandlordRole)
  }

  /** The session lookup resolved and named a user. */
  predicate HasUser(env: Env) {
    env.userCall.Returns? && SignedInUser(env.userCall.value).Some?
  }

  /** The guard reaches the profile lookup: the client was built, the
      session lookup resolved with a user, and the path is protected. */
  predicate ReachesProfileLookup(path: string, env: Env) {
    !env.clientThrows && HasUser(env) && Protected(path)
  }

  /** Some step the guard actually performs throws. */
  predicate Faults(path: string, env: Env) {
    env.clientThrows || env.userCall.Throws?
    || (ReachesProfileLookup(path, env) && env.profileCall.Throws?)
  }

  /** The guard's decision as a table over the lookup results: the first
      failing check decides, and an exception anywhere wins over everything
      that would have come after it. */
  function Decide(path: string, env: Env): (o: Outcome)
    // only protected paths are ever redirected
    ensures !Protected(path) ==> o.Pass?
    // fail open: an exception yields the fallback pass-through and nothing else does
    ensures o == Pass(FallbackResponse) <==> Faults(path, env)
    // `/dashboard` is only the landlord check's answer, for the exact path
    ensures o == Redirect(Dashboard) ==> path == LandlordOnlyPath && ReachesProfileLookup(path, env)
    // a redirect to sign-in means a missing user or a missing profile
    ensures o == Redirect(SignIn) ==>
      Protected(path) && !env.clientThrows && env.userCall.Returns?
      && (!HasUser(env) || (env.profileCall.Returns? && ReadProfile(env.profileCall.value).None?))
  {
    if env.clientThrows || env.userCall.Throws? then Pass(FallbackResponse)
    else if !Protected(path) then Pass(SessionResponse)
    else match SignedInUser(env.userCall.value)
      case None => Redirect(SignIn)
      case Some(_) =>
        if env.profileCall.Throws? then Pass(FallbackResponse)
        else match ReadProfile(env.profileCall.value)
          case None => Redirect(SignIn)
          case Some(profile) =>
            if path == LandlordOnlyPath && !IsLandlord(profile) then Redirect(Dashboard)
            else Pass(SessionResponse)
  }

  /** The guard as the program runs it, statement by statement: build the
      client, look up the session (for every path), test the prefix, and only
      then look up the role. Every lookup issued is appended to `trace`; an
      exception ends the run with the fallback pass-through and the trace
      issued so far. */
  method UpdateSession(path: string, env: Env) returns (o: Outcome, trace: seq<Lookup>)
    ensures o == Decide(path, env)
    // the session lookup is issued first, whatever the path, once the client exists
    ensures trace == [] <==> env.clientThrows
    ensures !env.clientThrows ==> trace[0] == GetUser
    ensures |trace| <= 2
    // each lookup is issued at most once: exactly this trace
    ensures trace ==
      if env.clientThrows then []
      else if ReachesProfileLookup(path, env) then [GetUser, ProfileQuery(SignedInUser(env.userCall.value).value.id)]
      else [GetUser]
    // the role lookup happens exactly when a user was found on a protected path,
    // after the session lookup and keyed by that user's id
    ensures (exists i :: 0 <= i < |trace| && trace[i].ProfileQuery?) <==> ReachesProfileLookup(path, env)
    ensures forall i :: 0 <= i < |trace| && trace[i].ProfileQuery? ==>
      i == 1 && HasUser(env) && trace[i].userId == SignedInUser(env.userCall.value).value.id
  {
    trace := [];
    if env.clientThrows {
      return Pass(FallbackResponse), trace;
    }
    trace := trace + [GetUser];
    if env.userCall.Throws? {
      return Pass(FallbackResponse), trace;
    }
    var auth := env.userCall.value;
    var isProtected := MatchesPrefix(path, ProtectedPrefix);
    if isProtected {
      if auth.failed || auth.data.None? {
        return Redirect(SignIn), trace;
      }
      var user := auth.data.value;
      trace := trace + [ProfileQuery(user.id)];
      assert trace[1].ProfileQuery?;
      if env.profileCall.Throws? {
        return Pass(FallbackResponse), trace;
      }
      var reply := env.profileCall.value;
      if reply.failed || reply.data.None? {
        return Redirect(SignIn), trace;
      }
      if path == LandlordOnlyPath && reply.data.value.role != Some(LandlordRole) {
        return Redirect(Dashboard), trace;
      }
    }
    return Pass(SessionResponse), trace;
  }
}
