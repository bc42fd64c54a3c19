/** What the route guard gets back from the backend client: the answer of the
    session lookup, the answer of the role lookup in the `profiles` table, and
    whether a step threw instead of answering. The client itself (its
    construction, cookies and network traffic) is not modelled; these values
    are the guard's inputs. */
module Backend {

  datatype Option<+T> = None | Some(value: T)

  /** A user as the session lookup reports it; only its id is used. */
  datatype User = User(id: string)

  /** A row of the `profiles` table narrowed to its `role` column, which may be
      null. */
  datatype Profile = Profile(role: Option<string>)

  /** The `{ data, error }` pair a client call resolves to. `failed` stands for
      a non-null `error` object; `data` may be present or absent independently
      of it. */
  datatype Reply<+T> = Reply(data: Option<T>, failed: bool)

  /** A call either resolves to a value or throws (a rejected promise or a
      synchronous exception). */
  datatype Attempt<+T> = Returns(value: T) | Throws

  /** Everything the backend contributes to one request: whether building the
      server client throws, what `auth.getUser()` does, and what the
      single-row `profiles` query does if it is issued. */
  datatype Env = Env(
    clientThrows: bool,
    userCall: Attempt<Reply<User>>,
    profileCall: Attempt<Reply<Profile>>)

  /** A remote lookup the guard issued, in the order it issued them. */
  datatype Lookup = GetUser | ProfileQuery(userId: string)

  /** The user a session reply vouches for: none when it carries an error or
      no user. */
  function SignedInUser(r: Reply<User>): Option<User> {
    if r.failed then None else r.data
  }

  /** The profile a role reply yields: none when it carries an error or no
      row. */
  function ReadProfile(r: Reply<Profile>): Option<Profile> {
    if r.failed then None else r.data
  }
}
