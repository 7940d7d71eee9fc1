/** Values shared by every part of the client: optional values (TypeScript's
    `T | null`), the signed-in identity and the authentication context that
    every page reads through `useAuth()`. The session provider itself lives in
    `@/lib/auth`, which is not part of this model: its state is an input. */
module Common {

  /** `T | null` in the source. */
  datatype Option<+T> = None | Some(value: T)

  /** The identity issued by the authentication service: its unique id and
      (possibly missing) email address. */
  datatype User = User(id: string, email: Option<string>)

  /** What `useAuth()` yields to a component: the current user, if any, and
      whether the initial session check is still running. */
  datatype AuthState = AuthState(user: Option<User>, loading: bool)

  /** A JavaScript string used as a condition: `null` and `''` are falsy. */
  predicate Truthy(s: Option<string>) {
    s.Some? && s.value != ""
  }
}
