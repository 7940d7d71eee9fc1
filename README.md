# Fellowship client: the route guard, the profile hook and the page state machines

Fellowship is a small React client. A visitor signs in with a magic link sent
by email, fills in a one-time onboarding form (organisation name, bio,
optional avatar), and can later edit their profile on a settings page. Most
of the code is markup. This model covers the logic inside the components:

- **Route guard** (`Guard.ProtectedRoute`). It makes a three-way decision on
  the authentication state: a spinner while the session check runs, a
  `replace` redirect to `/login` when nobody is signed in, otherwise the
  protected page.
- **Router table** (`AppRoutes`). It lists five literal paths. Three of them
  are wrapped in the guard.
- **Profile hook** (`UseProfile.ProfileStore`). It holds the `profile`,
  `loading` and `error` cells. They change on a user change, on the fetch
  reply and on the reply to `updateProfile`'s upsert. The upsert payload is
  `{ id: user.id, ...updates }`.
- **Login page** (`Login.LoginPage`). It holds the email field and the
  `loading`/`sent`/`error` flags around the sign-in call. It also chooses what
  to render: spinner, redirect to `/dashboard`, "check your mailbox", or the
  form.
- **Onboarding page** (`Onboarding`). It covers:
  - the avatar storage path `<user id>/avatar.<ext>`;
  - the one update that sets `onboarding_completed: true` and adds
    `avatar_url` only when the upload produced a URL;
  - the submit-disabled predicate;
  - the `loading` flag.
- **Settings page** (`Settings`). It covers:
  - filling the form from the profile, with `null` shown as `''`;
  - the exact three-field update;
  - the `saving`/`saved` flags, and the timer that clears `saved`.

Every async handler is split into a step that starts the backend call and a
step that receives its reply. The reply is passed in as an argument. Some
methods (`UseProfile.UpdateProfile`, `Onboarding.Submit`, `Settings.Save`)
chain these steps against `ProfilesTable`. `ProfilesTable` stands in for the
`profiles` table: a map from id to row, written only by upsert
(create-if-absent, update-if-present). Those methods state the whole round
trip in terms of the table.

In several places the code does not do what the product is meant to do. The
model follows the code:

- **No onboarding redirect.** The guard never reads the profile. It ignores
  the `requireOnboarding={false}` prop on `/app/onboarding`. A signed-in user
  whose onboarding is not done still gets `/app` and `/app/settings`. The
  intended behaviour is a redirect to onboarding until it is done, and a
  redirect away from it afterwards; the code has neither.
- **Missing row is an error.** The profile query uses `.single()`, so a
  missing row comes back as an error. `FetchCompleted` stores it in `error`.
  The intended behaviour treats "no row" as "no profile yet" rather than as
  an error.
- **No stale-fetch suppression.** When the user changes, a query issued
  earlier can still answer later and overwrite the profile
  (`UseProfile.LateFetchWins`). The user-change effect also does not raise
  `loading` again and does not clear a previous `error`.
- **Login reset keeps the email.** "Utiliser une autre adresse" only clears
  `sent`; the typed address stays. The email is sent to sign-in exactly as
  typed, and no existence check runs before it.
- **Unrouted redirect target.** A signed-in user on `/login` is sent to
  `/dashboard`, which no route matches (`AppRoutes.DashboardUnrouted`).
- **Organisation can be emptied.** The settings page sends an emptied
  organisation as `''` and never touches `onboarding_completed`. An onboarded
  row can therefore end with `company = ''`, although an onboarded profile
  is meant to name its organisation
  (`Settings.EmptiedCompanyStaysOnboarded`).

## Model

| member | source | states |
|---|---|---|
| `Guard.ProtectedRoute` | src/components/ProtectedRoute.tsx:5-21 | pending iff auth is loading (checked first, even with a user); a `replace` redirect to `/login` iff not loading and no user; the children iff not loading and a user is present |
| `Guard.NoRedirectWhileLoading` | src/components/ProtectedRoute.tsx:8-14 | while the session check runs the guard is pending for every user value, never a redirect |
| `Guard.IncompleteProfileStillRendered` | src/components/ProtectedRoute.tsx:5-6 | a signed-in user whose profile is missing or not onboarded still gets the protected content |
| `AppRoutes.Normalise` | src/App.tsx:14-41 | the location as the router compares it: each kept character is the location's in lower case, only slashes are dropped, and they are all trailing; no trailing slash remains except on `/` |
| `AppRoutes.RenderElement` | src/App.tsx:15-40 | a plain element shows its page; a guarded one shows the spinner iff auth is loading, the `replace` redirect to `/login` iff signed out, and its page iff signed in |
| `AppRoutes.Resolve` | src/App.tsx:14-41 | nothing matches iff no route path equals the normalised location; otherwise the screen is the matching route's element rendered for the auth state |
| `AppRoutes.CaseAndTrailingSlashIgnored` | src/App.tsx:17-24 | `/App/`, `/APP` and `/app//` reach the same screen as `/app`, which is routed |
| `AppRoutes.Lookup` | src/App.tsx:14-41 | the route found has the requested path and is in the table; nothing is found iff no route has that path |
| `AppRoutes.RoutesAreDistinct` | src/App.tsx:15-40 | the table has exactly five routes with pairwise distinct paths |
| `AppRoutes.PublicPagesUnguarded` | src/App.tsx:15-16 | `/` and `/login` show their pages in every authentication state |
| `AppRoutes.ProtectedPagesGuarded` | src/App.tsx:17-40 | `/app` and `/app/settings` are guarded with no extra prop, `/app/onboarding` with `requireOnboarding={false}` |
| `AppRoutes.RequireOnboardingIgnored` | src/App.tsx:28 | two guarded elements that differ only in their `requireOnboarding` prop render the same thing |
| `AppRoutes.SignedOutNeverSeesProtectedPage` | src/App.tsx:17-40 | on every location (any case, any trailing slashes), a signed-out visitor (session check over) sees none of the three protected pages; every guarded route sends them to `/login` with `replace` |
| `AppRoutes.DashboardUnrouted` | src/pages/Login.tsx:24 | `/dashboard` matches no route, so the login page's redirect target shows nothing |
| `DatabaseTypes.Spread` | src/hooks/useProfile.ts:46 | the keys of `{...a, ...b}` are the keys of `a` and of `b` |
| `DatabaseTypes.Apply` | src/hooks/useProfile.ts:43-46 | writing a partial profile sets every column it names to its value and leaves every other column as it was |
| `DatabaseTypes.ApplyIsDetermined` | src/hooks/useProfile.ts:43 | those two properties determine the written row |
| `DatabaseTypes.ApplyIdempotent` | src/hooks/useProfile.ts:43 | writing the same partial profile twice equals writing it once |
| `DatabaseTypes.ApplySpread` | src/pages/Onboarding.tsx:63-67 | writing `{...a, ...b}` equals writing `a`, then `b` |
| `DatabaseTypes.ApplyNoFields` | src/lib/database.types.ts:71 | writing `{}` changes nothing |
| `ProfilesTable.NewRow` | src/lib/database.types.ts:13-23 | a created row carries the requested id and starts not onboarded |
| `ProfilesTable.Upsert` | src/hooks/useProfile.ts:43-48 | the returned row carries the payload's id and every value the payload names; other columns come from the existing row, or from a fresh row if the id was absent; the table maps that id to the returned row and is otherwise unchanged |
| `ProfilesTable.UpsertKeepsWellKeyed` | src/hooks/useProfile.ts:43-46 | an upsert keeps every row stored under its own id |
| `ProfilesTable.UpsertIdempotent` | src/hooks/useProfile.ts:43 | repeating an upsert, at any later time, returns the same row and leaves the table unchanged |
| `UseProfile.StartUpdate` | src/hooks/useProfile.ts:40-46 | without a user the call fails at once with "Not authenticated" and sends nothing; otherwise the payload's id is the user's id unless `updates` carries one, the payload's keys are those of `updates` plus `id`, and it agrees with `updates` on every other key |
| `UseProfile.ProfileStore.constructor` | src/hooks/useProfile.ts:8-10 | the initial state is profile null, loading true, error null |
| `UseProfile.ProfileStore.UserChanged` | src/hooks/useProfile.ts:12-17 | with no user the profile becomes null, loading false and no query is issued; with a user the query for that id is issued and no cell changes |
| `UseProfile.ProfileStore.FetchCompleted` | src/hooks/useProfile.ts:19-35 | an error is stored and the profile is kept; otherwise the returned row becomes the profile and the old error stays; loading ends either way |
| `UseProfile.ProfileStore.UpdateCompleted` | src/hooks/useProfile.ts:50-54 | a row returned without error replaces the profile, otherwise the profile is kept; the reply's error is returned; loading and error are untouched |
| `UseProfile.UpdateProfile` | src/hooks/useProfile.ts:40-55 | without a user: the "Not authenticated" error, the table and the profile unchanged; with one and a failing upsert: that error returned, the table and the profile unchanged; with one and a successful upsert: no error, the table upserted with `{id, ...updates}`, and the profile equal to the upserted row; `loading` and `error` never change |
| `UseProfile.UpdateProfileIdempotent` | src/hooks/useProfile.ts:40-55 | calling `updateProfile` twice with the same updates leaves the table and the row as the first call left them |
| `UseProfile.LateFetchWins` | src/hooks/useProfile.ts:12-38 | when the user changes from `a` to `b` and `a`'s reply arrives last, the profile ends as `a`'s row |
| `Login.LoginPage.constructor` | src/pages/Login.tsx:9-12 | empty email, not loading, not sent, no error |
| `Login.LoginPage.View` | src/pages/Login.tsx:15-107 | spinner iff auth is loading; a `replace` redirect to `/dashboard` iff not loading and signed in; the sent notice (with the typed email) iff signed out and sent; otherwise the form, showing the error, its button disabled iff loading |
| `Login.LoginPage.EmailChanged` | src/pages/Login.tsx:82 | the field holds exactly the typed value and nothing else changes |
| `Login.LoginPage.SubmitStarted` | src/pages/Login.tsx:27-32 | loading becomes true and the error is cleared; the sign-in call receives the email unchanged |
| `Login.LoginPage.SubmitCompleted` | src/pages/Login.tsx:34-40 | an error shows its message and leaves `sent` false; success sets `sent`; loading ends either way and the email is kept |
| `Login.LoginPage.UseAnotherAddress` | src/pages/Login.tsx:56 | `sent` becomes false and the email and other flags are kept |
| `Login.SignInRound` | src/pages/Login.tsx:27-62 | a successful round signs in with exactly the typed address, shows the sent notice for it, and the reset shows the form with the address still filled in |
| `Onboarding.AvatarPath` | src/pages/Onboarding.tsx:35-36 | the path starts with `<user id>/avatar.` and the extension after it holds no `.` |
| `Onboarding.AvatarPathShape` | src/pages/Onboarding.tsx:35-36 | the path is `<user id>/avatar.<ext>`, with `ext` the text after the last `.` of the file name, or the whole name when it has no dot |
| `Onboarding.AvatarPathsSeparateUsers` | src/pages/Onboarding.tsx:36 | two different user ids without `/` never share an avatar path |
| `Onboarding.UploadedAvatarUrl` | src/pages/Onboarding.tsx:42-51 | an upload error yields null, success the public URL |
| `Onboarding.OnboardingPayload` | src/pages/Onboarding.tsx:63-67 | the update holds `company` and `bio` from the form and `onboarding_completed: true`, plus `avatar_url` exactly when the URL is non-null and non-empty, and no other key |
| `Onboarding.AcmeWithoutAvatar` | src/pages/Onboarding.tsx:63-67 | `company = "Acme"` with no avatar sends exactly `{company: "Acme", bio: "", onboarding_completed: true}` |
| `Onboarding.SubmitOnboards` | src/pages/Onboarding.tsx:54-67 | for a signed-in user the upserted row has the user's id, is onboarded and holds the typed organisation and bio; it keeps the existing name, email and (without a new URL) avatar; with a non-empty organisation it is a complete profile |
| `Onboarding.OnboardingPage.constructor` | src/pages/Onboarding.tsx:12-18 | not loading, no file, empty company and bio |
| `Onboarding.OnboardingPage.AvatarChosen` | src/pages/Onboarding.tsx:20-23 | a chosen file replaces the previous one and an empty selection keeps it |
| `Onboarding.OnboardingPage.FieldChanged` | src/pages/Onboarding.tsx:79-86 | only the named field takes the new value |
| `Onboarding.EnabledSubmitNamesOrganisation` | src/pages/Onboarding.tsx:166 | while the submit button is enabled (not loading, organisation typed), the row the submission writes is onboarded and names a non-empty organisation |
| `Onboarding.OnboardingPage.SubmitDisabled` | src/pages/Onboarding.tsx:166 | disabled iff loading or the company is empty; `EnabledSubmitNamesOrganisation` and `Onboarding.Submit` give what it protects |
| `Onboarding.OnboardingPage.SubmitStarted` | src/pages/Onboarding.tsx:32-61 | loading becomes true; an upload to the avatar path is issued iff a file was chosen and a user is signed in |
| `Onboarding.OnboardingPage.SubmitCompleted` | src/pages/Onboarding.tsx:69-76 | an update error ends loading and stays on the page; success navigates to `/app` |
| `Onboarding.Submit` | src/pages/Onboarding.tsx:54-77 | without a user: no navigation, loading ended, the table unchanged; with one and a failing upsert: no navigation, loading ended, the table and the profile unchanged; with one and a successful upsert: the table upserted with the onboarding payload (avatar URL only if a file was uploaded without error), the profile equal to the row, navigation to `/app`, and if the button was enabled, a stored profile that is onboarded and names its organisation; the hook's `loading` and `error` never change, and without a user the profile is kept |
| `Settings.OrEmpty` | src/pages/Settings.tsx:23-25 | null becomes `''` and a string is kept |
| `Settings.FormFromProfile` | src/pages/Settings.tsx:22-26 | each form field is the profile's column, or `''` when that column is null |
| `Settings.SettingsPayload` | src/pages/Settings.tsx:14-18 | the update has exactly the keys `full_name`, `company` and `bio`, holding the form's values (empty strings included) |
| `Settings.SaveUnchangedForm` | src/pages/Settings.tsx:20-35 | saving the form as the profile filled it turns each null column into `''`; the row is unchanged iff none of the three columns was null |
| `Settings.SaveKeepsOtherColumns` | src/pages/Settings.tsx:35 | a save writes the three form fields and keeps the existing onboarding flag, avatar and email; a row it creates starts not onboarded |
| `Settings.EmptiedCompanyStaysOnboarded` | src/pages/Settings.tsx:30-43 | emptying the organisation of an onboarded profile and saving leaves an onboarded row with `company = ''` |
| `Settings.SettingsPage.constructor` | src/pages/Settings.tsx:12-18 | not saving, not saved, all fields empty |
| `Settings.SettingsPage.View` | src/pages/Settings.tsx:54-158 | spinner iff the profile is loading; otherwise the form, its button disabled iff saving and labelled "Enregistré" iff saved, else "Enregistrer" |
| `Settings.SettingsPage.ProfileChanged` | src/pages/Settings.tsx:20-28 | a loaded profile refills the form and a null profile leaves it untouched |
| `Settings.SettingsPage.FieldChanged` | src/pages/Settings.tsx:45-52 | only the named field takes the new value |
| `Settings.SettingsPage.SubmitStarted` | src/pages/Settings.tsx:30-35 | saving becomes true and saved false; the form is sent as it stands |
| `Settings.SettingsPage.SubmitCompleted` | src/pages/Settings.tsx:37-42 | saved (and the reset timer) iff no error; saving ends either way; "Enregistré" is never shown while saving |
| `Settings.SettingsPage.TimerFired` | src/pages/Settings.tsx:39 | saved becomes false and nothing else changes |
| `Settings.Save` | src/pages/Settings.tsx:30-43 | without a user: not saved and the table unchanged; with one and a failing upsert: not saved, no timer, the table and the profile unchanged; with one and a successful upsert: saved, the reset timer armed, the table upserted with the three fields, and the profile equal to the row; the hook's `loading` and `error` never change (so the page does not fall back to its spinner), and without a user the profile is kept |
| `Strings.Split` | src/pages/Onboarding.tsx:35 | `split` returns at least one piece; no piece contains the separator; joining the pieces with it gives back the string |
| `Strings.LastPiece` | src/pages/Onboarding.tsx:35 | `.pop()` of the split holds no separator; `LastPieceIsTail` places it in the string |
| `Strings.LastPieceIsTail` | src/pages/Onboarding.tsx:35 | `.pop()` of the split is the suffix after the last separator, or the whole string when it has none |

## Left out

- The session provider (`useAuth`, `AuthProvider`, sign-in and sign-out) is not part of this model. Its user and loading flag are inputs, and the sign-in reply is an argument.
- The backend client (queries, upsert, storage upload, `getPublicUrl`) is a foreign library. Its replies are arguments, the upsert's included: `UpdateProfile`, `Onboarding.Submit` and `Settings.Save` take it as `upsertError`. `ProfilesTable` stands in for the table. The schema is not part of this model, so a created row's defaults (nullable columns null, not onboarded, the given time stamp) are an assumption. Server-side time-stamp updates are not modelled.
- Async interleaving beyond sequential start/complete events is left out. So are React re-render mechanics and the hooks' per-component instances.
- `console.error` logging, the `FileReader` avatar preview and `window.location.href` navigation are browser effects. The navigation appears only as the returned target path.
- The two-second `setTimeout` in the settings page is an explicit `TimerFired` event with no clock.
- File contents are not modelled: only a file's name is. Errors are modelled as their message strings.
- React Router's ranking of routes is not modelled. The five paths are literal and distinct, so at most one matches.
- `AppRoutes.Normalise` folds only ASCII letters to lower case, and drops trailing slashes. Locations are taken as decoded paths: percent-decoding, query strings, hash fragments and the router's `basename` are not modelled.
- The markup and the static pages (src/pages/Landing.tsx, src/pages/App.tsx) are not modelled. Neither are the table types other than `Profile` in src/lib/database.types.ts, which no modelled logic uses.
- Email existence probing, debouncing and onboarding redirects do not exist in this code.
- The onboarding submit handler does not check the disabled state itself, so the model does not make it a precondition. `Onboarding.EnabledSubmitNamesOrganisation` and `Onboarding.Submit` state what an enabled button guarantees about the written row.
