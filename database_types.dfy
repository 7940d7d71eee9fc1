/** The `profiles` row type and the partial objects written to it
    (`Profile` and `Partial<Profile>` in src/lib/database.types.ts). A partial
    object is a record whose fields may be absent; a nullable column that is
    present in it may still hold `null`, so such a field is an
    `Option<Option<string>>`. */
module DatabaseTypes {
  import opened Common

  /** One row of the `profiles` table. */
  datatype Profile = Profile(
    id: string,
    email: Option<string>,
    fullName: Option<string>,
    avatarUrl: Option<string>,
    company: Option<string>,
    bio: Option<string>,
    onboardingCompleted: bool,
    createdAt: string,
    updatedAt: string)

  /** The keys of a profile object. */
  datatype Field =
    | Id | Email | FullName | AvatarUrl | Company | Bio
    | OnboardingCompleted | CreatedAt | UpdatedAt

  /** `Partial<Profile>`: every key may be missing. */
  datatype ProfileUpdate = ProfileUpdate(
    id: Option<string>,
    email: Option<Option<string>>,
    fullName: Option<Option<string>>,
    avatarUrl: Option<Option<string>>,
    company: Option<Option<string>>,
    bio: Option<Option<string>>,
    onboardingCompleted: Option<bool>,
    createdAt: Option<string>,
    updatedAt: Option<string>)

  /** The empty object `{}`. */
  const NoFields: ProfileUpdate :=
    ProfileUpdate(None, None, None, None, None, None, None, None, None)

  /** The keys present in a partial object. */
  function Keys(u: ProfileUpdate): set<Field> {
    (if u.id.Some? then {Id} else {})
    + (if u.email.Some? then {Email} else {})
    + (if u.fullName.Some? then {FullName} else {})
    + (if u.avatarUrl.Some? then {AvatarUrl} else {})
    + (if u.company.Some? then {Company} else {})
    + (if u.bio.Some? then {Bio} else {})
    + (if u.onboardingCompleted.Some? then {OnboardingCompleted} else {})
    + (if u.createdAt.Some? then {CreatedAt} else {})
    + (if u.updatedAt.Some? then {UpdatedAt} else {})
  }

  function Over<T>(base: Option<T>, over: Option<T>): Option<T> {
    if over.Some? then over else base
  }

  /** `{...base, ...over}`: a key of `over` wins over the same key of `base`. */
  function Spread(base: ProfileUpdate, over: ProfileUpdate): (r: ProfileUpdate)
    ensures Keys(r) == Keys(base) + Keys(over)
  {
    ProfileUpdate(
      Over(base.id, over.id),
      Over(base.email, over.email),
      Over(base.fullName, over.fullName),
      Over(base.avatarUrl, over.avatarUrl),
      Over(base.company, over.company),
      Over(base.bio, over.bio),
      Over(base.onboardingCompleted, over.onboardingCompleted),
      Over(base.createdAt, over.createdAt),
      Over(base.updatedAt, over.updatedAt))
  }

  /** Every key present in `u` holds, in `r`, the value `u` gives it. */
  predicate Reflects(r: Profile, u: ProfileUpdate) {
    && (u.id.Some? ==> r.id == u.id.value)
    && (u.email.Some? ==> r.email == u.email.value)
    && (u.fullName.Some? ==> r.fullName == u.fullName.value)
    && (u.avatarUrl.Some? ==> r.avatarUrl == u.avatarUrl.value)
    && (u.company.Some? ==> r.company == u.company.value)
    && (u.bio.Some? ==> r.bio == u.bio.value)
    && (u.onboardingCompleted.Some? ==> r.onboardingCompleted == u.onboardingCompleted.value)
    && (u.createdAt.Some? ==> r.createdAt == u.createdAt.value)
    && (u.updatedAt.Some? ==> r.updatedAt == u.updatedAt.value)
  }

  /** `r` and `p` agree on every column that `u` does not mention. */
  predicate Untouched(r: Profile, p: Profile, u: ProfileUpdate) {
    && (u.id.None? ==> r.id == p.id)
    && (u.email.None? ==> r.email == p.email)
    && (u.fullName.None? ==> r.fullName == p.fullName)
    && (u.avatarUrl.None? ==> r.avatarUrl == p.avatarUrl)
    && (u.company.None? ==> r.company == p.company)
    && (u.bio.None? ==> r.bio == p.bio)
    && (u.onboardingCompleted.None? ==> r.onboardingCompleted == p.onboardingCompleted)
    && (u.createdAt.None? ==> r.createdAt == p.createdAt)
    && (u.updatedAt.None? ==> r.updatedAt == p.updatedAt)
  }

  /** A profile marked as onboarded names its organisation. */
  predicate CompanyWhenOnboarded(p: Profile) {
    p.onboardingCompleted ==> p.company.Some? && p.company.value != ""
  }

  /** Writing a partial object over an existing row, as an update does. */
  function Apply(p: Profile, u: ProfileUpdate): (r: Profile)
    ensures Reflects(r, u)
    ensures Untouched(r, p, u)
  {
    Profile(
      Over(Some(p.id), u.id).value,
      Over(Some(p.email), u.email).value,
      Over(Some(p.fullName), u.fullName).value,
      Over(Some(p.avatarUrl), u.avatarUrl).value,
      Over(Some(p.company), u.company).value,
      Over(Some(p.bio), u.bio).value,
      Over(Some(p.onboardingCompleted), u.onboardingCompleted).value,
      Over(Some(p.createdAt), u.createdAt).value,
      Over(Some(p.updatedAt), u.updatedAt).value)
  }

  /** The two halves of `Apply`'s contract determine its result. */
  lemma ApplyIsDetermined(p: Profile, u: ProfileUpdate, r: Profile)
    requires Reflects(r, u) && Untouched(r, p, u)
    ensures r == Apply(p, u)
  {
  }

  /** Writing the same partial object twice is writing it once. */
  lemma ApplyIdempotent(p: Profile, u: ProfileUpdate)
    ensures Apply(Apply(p, u), u) == Apply(p, u)
  {
  }

  /** Writing `{...a, ...b}` is writing `a` and then `b`. */
  lemma ApplySpread(p: Profile, a: ProfileUpdate, b: ProfileUpdate)
    ensures Apply(p, Spread(a, b)) == Apply(Apply(p, a), b)
  {
  }

  /** Writing `{}` changes nothing. */
  lemma ApplyNoFields(p: Profile)
    ensures Apply(p, NoFields) == p
  {
  }
}
