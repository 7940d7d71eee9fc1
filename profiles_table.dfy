/** A stand-in for the `profiles` table behind the backend client: a map from
    id to row, written only by upsert (create the row if its id is absent,
    update it if present), the semantics the comment at
    src/hooks/useProfile.ts:43 relies on. The database schema is not part of
    this model: a freshly created row takes `null` in every optional column,
    `onboarding_completed = false`, and the given time stamp. */
module ProfilesTable {
  import opened Common
  import opened DatabaseTypes

  type Table = map<string, Profile>

  /** Every row is stored under its own id. */
  predicate WellKeyed(t: Table) {
    forall k :: k in t ==> t[k].id == k
  }

  /** The row the database creates for a new id before the payload is written. */
  function NewRow(id: string, now: string): (r: Profile)
    ensures r.id == id && !r.onboardingCompleted
  {
    Profile(id, None, None, None, None, None, false, now, now)
  }

  datatype Upserted = Upserted(table: Table, row: Profile)

  /** `upsert(payload)`: the payload must carry an id (the table's insert type
      is `Partial<Profile> & { id: string }`). The row stored under that id
      becomes the existing (or freshly created) row with the payload written
      over it, the other rows are untouched, and that row is returned. */
  function Upsert(t: Table, payload: ProfileUpdate, now: string): (u: Upserted)
    requires payload.id.Some?
    ensures u.row.id == payload.id.value
    ensures u.table == t[payload.id.value := u.row]
    ensures Reflects(u.row, payload)
    ensures payload.id.value in t ==> Untouched(u.row, t[payload.id.value], payload)
    ensures payload.id.value !in t ==> Untouched(u.row, NewRow(payload.id.value, now), payload)
  {
    var id := payload.id.value;
    var row := Apply(if id in t then t[id] else NewRow(id, now), payload);
    Upserted(t[id := row], row)
  }

  lemma UpsertKeepsWellKeyed(t: Table, payload: ProfileUpdate, now: string)
    requires payload.id.Some? && WellKeyed(t)
    ensures WellKeyed(Upsert(t, payload, now).table)
  {
  }

  /** Create-if-absent / update-if-present makes a repeated upsert a no-op:
      the second call finds the row the first created and rewrites the same
      values, whatever its time stamp. */
  lemma UpsertIdempotent(t: Table, payload: ProfileUpdate, now: string, later: string)
    requires payload.id.Some?
    ensures var first := Upsert(t, payload, now);
            Upsert(first.table, payload, later) == first
  {
  }
}
