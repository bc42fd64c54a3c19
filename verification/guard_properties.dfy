/** Properties of the route guard's decision that relate several requests or
    hold for whole families of lookup results. */
module GuardProperties {
  import opened Strings
  import opened Backend
  import opened RouteGuard

  /** Off the protected prefix the session and role results make no
      difference: two requests whose steps throw alike get the same outcome,
      whatever users and profiles their lookups returned. */
  lemma UnprotectedIgnoresLookups(path: string, e1: Env, e2: Env)
    requires !Protected(path)
    requires e1.clientThrows == e2.clientThrows
    requires e1.userCall.Throws? == e2.userCall.Throws?
    ensures Decide(path, e1) == Decide(path, e2)
    ensures Decide(path, e1).Pass?
  {
  }

  /** A session lookup that reports an error or no user sends a protected
      request to sign-in, and the role lookup is not reached, whatever it
      would have returned. */
  lemma NoUserMeansSignIn(path: string, env: Env)
    requires Protected(path) && !env.clientThrows && env.userCall.Returns?
    requires env.userCall.value.failed || env.userCall.value.data.None?
    ensures Decide(path, env) == Redirect(SignIn)
    ensures !ReachesProfileLookup(path, env)
  {
  }

  /** With a user, a role lookup that reports an error or finds no row sends
      a protected request to sign-in. */
  lemma NoProfileMeansSignIn(path: string, env: Env)
    requires ReachesProfileLookup(path, env) && env.profileCall.Returns?
    requires env.profileCall.value.failed || env.profileCall.value.data.None?
    ensures Decide(path, env) == Redirect(SignIn)
  {
  }

  /** Once user and profile are both found, the only redirect left is the
      landlord check, and it fires exactly on the path `/dashboard/new` for a
      role other than `landlord` (a null role included). */
  lemma LandlordCheck(path: string, env: Env, profile: Profile)
    requires ReachesProfileLookup(path, env)
    requires env.profileCall == Returns(Reply(Some(profile), false))
    ensures Decide(path, env) == Redirect(Dashboard) <==> path == LandlordOnlyPath && !IsLandlord(profile)
    ensures Decide(path, env) == Pass(SessionResponse) <==> !(path == LandlordOnlyPath && !IsLandlord(profile))
  {
  }

  /** A landlord with a profile is let through on every path, the
      listing-creation page included. */
  lemma LandlordAdmittedEverywhere(path: string, env: Env)
    requires !env.clientThrows && HasUser(env)
    requires env.profileCall == Returns(Reply(Some(Profile(Some(LandlordRole))), false))
    ensures Decide(path, env) == Pass(SessionResponse)
  {
  }

  /** On every path but `/dashboard/new` the role stored in the profile is
      never consulted: swapping it for any other role changes nothing. */
  lemma RoleIrrelevantElsewhere(path: string, env: Env, role: Option<string>, other: Option<string>)
    requires path != LandlordOnlyPath
    requires env.profileCall == Returns(Reply(Some(Profile(role)), false))
    ensures Decide(path, env) == Decide(path, env.(profileCall := Returns(Reply(Some(Profile(other)), false))))
  {
  }

  /** The prefix test is textual, not per path segment: `/dashboardx` counts
      as protected, so a request for it without a user is sent to sign-in. */
  lemma PrefixIsTextual(env: Env)
    requires !env.clientThrows && env.userCall == Returns(Reply(None, false))
    ensures Protected("/dashboardx")
    ensures Decide("/dashboardx", env) == Redirect(SignIn)
  {
  }

  /** The landlord test is exact equality: with a trailing slash the
      listing-creation page admits any signed-in user with a profile, while
      the exact path turns a non-landlord away. */
  lemma TrailingSlashNotRestricted(env: Env, profile: Profile)
    requires !env.clientThrows && HasUser(env)
    requires env.profileCall == Returns(Reply(Some(profile), false))
    requires !IsLandlord(profile)
    ensures Decide("/dashboard/new/", env) == Pass(SessionResponse)
    ensures Decide(LandlordOnlyPath, env) == Redirect(Dashboard)
  {
  }

  /** A protected request is sent to `/sign-in` exactly when nothing that
      runs throws and either the session lookup found no user or the role
      lookup, reached with a user, found no profile. */
  lemma SignInExactly(path: string, env: Env)
    ensures Decide(path, env) == Redirect(SignIn) <==>
      Protected(path) && !Faults(path, env)
      && (!HasUser(env) || (env.profileCall.Returns? && ReadProfile(env.profileCall.value).None?))
  {
  }

  /** A request is sent to `/dashboard` exactly when the role lookup was
      reached and answered without throwing, the path is exactly
      `/dashboard/new`, and the profile found does not carry the landlord
      role. */
  lemma DashboardExactly(path: string, env: Env)
    ensures Decide(path, env) == Redirect(Dashboard) <==>
      ReachesProfileLookup(path, env) && !Faults(path, env) && path == LandlordOnlyPath
      && ReadProfile(env.profileCall.value).Some? && !IsLandlord(ReadProfile(env.profileCall.value).value)
  {
  }

  /** Following a redirect, with the lookups answering as before, is let
      through on the next request: `/sign-in` is not protected, and the
      landlord check's `/dashboard` redirect presupposes a user and a profile,
      which `/dashboard` itself admits. In particular no redirect repeats. */
  lemma RedirectTargetPasses(path: string, env: Env, t: Target)
    requires Decide(path, env) == Redirect(t)
    ensures Decide(TargetPath(t), env).Pass?
  {
  }

  /** A client that keeps following the guard's redirects, with the lookups
      answering as before, for at most `hops` redirects, ends on this
      outcome. Redirects settle after one hop: `/sign-in` is not protected,
      and the landlord check's `/dashboard` redirect presupposes a user and a
      profile, which `/dashboard` itself admits. */
  function Follow(path: string, env: Env, hops: nat): (o: Outcome)
    ensures hops >= 1 ==> o.Pass?
    decreases hops
  {
    match Decide(path, env)
    case Redirect(t) => if hops == 0 then Redirect(t) else Follow(TargetPath(t), env, hops - 1)
    case Pass(via) => Pass(via)
  }
}
