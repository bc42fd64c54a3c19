# Route guard of the accommodation-listing application

This project models the request route guard `updateSession` of a
student-housing listing web application. The guard runs in front of each request.
First it builds a server-side backend client and refreshes the caller's
session. Then it decides one of three things:

- let the request through;
- redirect it to `/sign-in`;
- redirect it to `/dashboard`.

Paths starting with `/dashboard` need a signed-in user who has a row in the
`profiles` table. The exact path `/dashboard/new` (the listing-creation page)
also needs the role `landlord`. If any step throws, the request goes through
anyway: the guard fails open.

The backend client is not modelled. Its answers are inputs (`Backend.Env`):

- whether building the client throws;
- what `auth.getUser()` returns, as a `{ data, error }` pair, or that it throws;
- what the single-row `profiles` query returns, or that it throws.

The model has two parts:

- `RouteGuard.Decide` is the decision as a table over those inputs.
- `RouteGuard.UpdateSession` runs the guard's statements in order. It records
  each remote lookup it issues in a trace, and it is proved to agree with the
  table.

`GuardProperties` proves facts that cover families of inputs: what a
missing user or profile leads to, the landlord check, the textual prefix
test, and that the target of a redirect always lets the request through.

The session lookup happens for every path that reaches the guard, before
the prefix test. The role lookup happens on every protected path once a user
is found, not only on the landlord-only path, and a user with no profile row
is sent to `/sign-in`. Each pass-through says which
response it hands on:

- the session response, which carries any cookies set by the session refresh;
- the fresh response built in the exception handler, which carries none.

The guard's file also exports a route matcher `/dashboard/:path*`
(utils/supabase/middleware.ts:81-83). Whether it limits which requests reach
the guard depends on the application's middleware entry point, which is not
part of this model. The guard's own test is a plain string prefix, so the
model covers every path, `/dashboardx` included.

## Model

| member | source | states |
|---|---|---|
| RouteGuard.Decide | utils/supabase/middleware.ts:42-77 | Only protected paths are ever redirected. The fallback pass-through happens exactly when a step that runs throws (fail open). A redirect to `/dashboard` happens only on the exact path `/dashboard/new` after the profile lookup. A redirect to `/sign-in` means the user or the profile is missing. |
| RouteGuard.UpdateSession | utils/supabase/middleware.ts:4-78 | The step-by-step run gives the table's outcome. The session lookup is issued exactly once and first, on every path, once the client exists. The trace is exactly the lookups the code issues: none if the client throws, otherwise the session lookup, followed by the role lookup in the case below. The role lookup is issued exactly when a user was found on a protected path. It comes second and is keyed by that user's id. |
| Strings.MatchesPrefix | utils/supabase/middleware.ts:45 | A left-to-right character comparison answers true exactly when the path starts with the given prefix. |
| GuardProperties.UnprotectedIgnoresLookups | utils/supabase/middleware.ts:44-69 | On an unprotected path the user and profile results make no difference, and the request is always let through. |
| GuardProperties.NoUserMeansSignIn | utils/supabase/middleware.ts:46-52 | On a protected path, a session error or a missing user redirects to `/sign-in`, and the profile lookup is not reached. |
| GuardProperties.NoProfileMeansSignIn | utils/supabase/middleware.ts:52-60 | With a user on a protected path, a profile error or a missing profile row redirects to `/sign-in`. |
| GuardProperties.LandlordCheck | utils/supabase/middleware.ts:62-69 | With user and profile found, the request is redirected to `/dashboard` if and only if the path is exactly `/dashboard/new` and the role is not `landlord`. Otherwise it passes through. |
| GuardProperties.LandlordAdmittedEverywhere | utils/supabase/middleware.ts:62-69 | A landlord with a profile is let through on every path, `/dashboard/new` included. |
| GuardProperties.RoleIrrelevantElsewhere | utils/supabase/middleware.ts:63 | On any path other than `/dashboard/new`, changing the stored role does not change the outcome. |
| GuardProperties.PrefixIsTextual | utils/supabase/middleware.ts:45-48 | `/dashboardx` counts as protected, and a request for it without a user is redirected to `/sign-in`. |
| GuardProperties.TrailingSlashNotRestricted | utils/supabase/middleware.ts:63-65 | A non-landlord with a profile passes on `/dashboard/new/` but is redirected to `/dashboard` on `/dashboard/new`. |
| GuardProperties.SignInExactly | utils/supabase/middleware.ts:45-60 | A request is redirected to `/sign-in` if and only if its path is protected, no step that runs throws, and either no user was found or the role lookup found no profile. |
| GuardProperties.DashboardExactly | utils/supabase/middleware.ts:52-65 | A request is redirected to `/dashboard` if and only if the role lookup was reached and did not throw, the path is exactly `/dashboard/new`, and the profile found is not a landlord's. |
| GuardProperties.RedirectTargetPasses | utils/supabase/middleware.ts:45-65 | Following a redirect, with the lookups answering as before, is let through on the next request, so no redirect repeats. |
| GuardProperties.Follow | utils/supabase/middleware.ts:45-65 | A client that follows redirects, with the lookups answering as before, is let through after at most one redirect. |

## Left out

- Building the backend client from environment variables (utils/supabase/middleware.ts:13-34): only whether this throws is an input.
- The cookie callbacks `getAll`/`setAll` and building `NextResponse` objects (utils/supabase/middleware.ts:7-11, 17-31): this is framework plumbing. A pass-through only records which response object it hands on, not its cookies. Each redirect (utils/supabase/middleware.ts:48, 59, 64) is a fresh response, so it drops any cookies `setAll` set during the session refresh; the model does not track this.
- `auth.getUser()` and the `profiles` query (utils/supabase/middleware.ts:37-40, 52-56): these are remote calls into a library whose code is not part of this model. Their results are inputs, so the behaviour of `.single()` on zero or several rows is folded into "error or no row".
- `new URL(path, request.url)` throwing: the request URL is always absolute, so redirect construction is treated as never throwing.
- The route matcher `config.matcher` (utils/supabase/middleware.ts:81-83): its glob semantics belong to the framework, and whether it applies depends on the middleware entry point, which is not part of this model.
- The pages and components (listing browser, listing detail, listing-creation form, property cards and grid, layout): they render fetched rows or call the backend SDK, and they are outside the guard this project models.
