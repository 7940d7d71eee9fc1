/** The profile hook of src/hooks/useProfile.ts. Its three state cells become
    the fields of `ProfileStore`; the fetch effect and `updateProfile` are
    split into a step that starts the backend call and a step that receives
    its result. The signed-in user comes from the authentication context and
    is passed in. */
module UseProfile {
  import opened Common
  import opened DatabaseTypes
  import opened ProfilesTable

  /** The backend client's reply to a query: `{ data, error }`. */
  datatype Response = Response(data: Option<Profile>, error: Option<string>)

  const NotAuthenticated: string := "Not authenticated"

  /** The first half of `updateProfile`: an immediate error, or the upsert
      payload sent to the `profiles` table. */
  datatype UpdateCall = Rejected(error: string) | SendUpsert(payload: ProfileUpdate)

  /** `updateProfile(updates)` up to the backend call: without a user it
      fails at once and sends nothing; otherwise it sends
      `{ id: user.id, ...updates }`, whose id is the user's unless `updates`
      carries its own, which wins by spread order. */
  function StartUpdate(user: Option<User>, updates: ProfileUpdate): (c: UpdateCall)
    ensures c.Rejected? <==> user.None?
    ensures c.Rejected? ==> c.error == NotAuthenticated
    ensures c.SendUpsert? ==>
              c.payload.id == Some(if updates.id.Some? then updates.id.value else user.value.id)
    ensures c.SendUpsert? ==> Keys(c.payload) == Keys(updates) + {Id}
    ensures c.SendUpsert? ==> c.payload.(id := updates.id) == updates
  {
    if user.None? then Rejected(NotAuthenticated)
    else SendUpsert(Spread(NoFields.(id := Some(user.value.id)), updates))
  }

  class ProfileStore {
    var profile: Option<Profile>
    var loading: bool
    var error: Option<string>

    /** `useState(null)`, `useState(true)`, `useState(null)`. */
    constructor ()
      ensures profile == None && loading && error == None
    {
      profile, loading, error := None, true, None;
    }

    /** The effect run when the user changes. Without a user it clears the
        profile and stops loading, issuing no query. With one it issues the
        query for that user's id and changes nothing yet: `loading` is not
        raised again and a previous `error` is not cleared. */
    method UserChanged(user: Option<User>) returns (query: Option<string>)
      modifies this
      ensures query == if user.Some? then Some(user.value.id) else None
      ensures user.None? ==> profile == None && !loading && error == old(error)
      ensures user.Some? ==>
                profile == old(profile) && loading == old(loading) && error == old(error)
    {
      if user.None? {
        profile := None;
        loading := false;
        query := None;
      } else {
        query := Some(user.value.id);
      }
    }

    /** The query's reply. An error is kept and the profile left as it was;
        otherwise the returned row (possibly `null`) becomes the profile and
        the previous error stays. Loading ends either way. */
    method FetchCompleted(response: Response)
      modifies this
      ensures response.error.Some? ==> error == response.error && profile == old(profile)
      ensures response.error.None? ==> profile == response.data && error == old(error)
      ensures !loading
    {
      if response.error.Some? {
        error := response.error;
      } else {
        profile := response.data;
      }
      loading := false;
    }

    /** The upsert's reply: a row returned without error replaces the
        profile; the error (if any) is handed back to the caller. `loading`
        and `error` are never touched. */
    method UpdateCompleted(response: Response) returns (result: Option<string>)
      modifies this
      ensures result == response.error
      ensures profile ==
                if response.error.None? && response.data.Some? then response.data else old(profile)
      ensures loading == old(loading) && error == old(error)
    {
      if response.error.None? && response.data.Some? {
        profile := response.data;
      }
      result := response.error;
    }
  }

  /** `updateProfile` run against the table model. `upsertError` is the
      backend's answer: `None` lets the upsert through and returns the
      upserted row, `Some` rejects it and leaves the table as it was. */
  method UpdateProfile(store: ProfileStore, t: Table, user: Option<User>, updates: ProfileUpdate,
                       upsertError: Option<string>, now: string)
    returns (result: Option<string>, t': Table)
    modifies store
    ensures user.None? ==>
              result == Some(NotAuthenticated) && t' == t && store.profile == old(store.profile)
    ensures user.Some? && upsertError.Some? ==>
              result == upsertError && t' == t && store.profile == old(store.profile)
    ensures user.Some? && upsertError.None? ==>
              var c := StartUpdate(user, updates);
              var u := Upsert(t, c.payload, now);
              result == None && t' == u.table && store.profile == Some(u.row)
    ensures store.loading == old(store.loading) && store.error == old(store.error)
  {
    var c := StartUpdate(user, updates);
    if c.Rejected? {
      result, t' := Some(c.error), t;
    } else if upsertError.Some? {
      result := store.UpdateCompleted(Response(None, upsertError));
      t' := t;
    } else {
      var u := Upsert(t, c.payload, now);
      result := store.UpdateCompleted(Response(Some(u.row), None));
      t' := u.table;
    }
  }

  /** Calling `updateProfile` twice with the same updates: the second call
      leaves the table and the returned row as the first call made them. */
  lemma UpdateProfileIdempotent(t: Table, user: User, updates: ProfileUpdate, now: string, later: string)
    ensures var c := StartUpdate(Some(user), updates);
            c.SendUpsert? &&
            var first := Upsert(t, c.payload, now);
            Upsert(first.table, c.payload, later) == first
  {
  }

  /** No fetch is ever superseded: when the user changes from `a` to `b` and
      `a`'s reply arrives after `b`'s, the profile ends as `a`'s row. */
  method LateFetchWins(a: User, b: User, rowA: Profile, rowB: Profile) returns (final: Option<Profile>)
    ensures final == Some(rowA)
  {
    var store := new ProfileStore();
    var q := store.UserChanged(Some(a));
    q := store.UserChanged(Some(b));
    store.FetchCompleted(Response(Some(rowB), None));
    store.FetchCompleted(Response(Some(rowA), None));
    final := store.profile;
  }
}
