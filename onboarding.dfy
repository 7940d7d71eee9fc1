/** The onboarding page of src/pages/Onboarding.tsx: the form fields, the
    avatar's storage path, the payload of the single profile update that marks
    onboarding done, and the `loading` flag around the submission. */
module Onboarding {
  import opened Common
  import opened DatabaseTypes
  import opened Strings
  import opened ProfilesTable
  import opened UseProfile

  /** A chosen image file; only its name matters to the logic. */
  datatype File = File(name: string)

  datatype OnboardingForm = OnboardingForm(company: string, bio: string)

  /** The `name` attribute of the form's inputs. */
  datatype FormField = CompanyInput | BioInput

  const AppPath: string := "/app"

  /** The storage path of an uploaded avatar: `<user id>/avatar.<ext>`,
      `ext` being what `name.split('.').pop()` gives. */
  function AvatarPath(userId: string, fileName: string): (path: string)
    ensures |path| >= |userId| + 8 && path[..|userId| + 8] == userId + "/avatar."
    ensures '.' !in path[|userId| + 8..]
  {
    userId + "/avatar." + LastPiece(fileName, '.')
  }

  /** The path sits in the user's folder, and its extension is the text after
      the last dot of the file name, or the whole name if it has no dot. */
  lemma AvatarPathShape(userId: string, fileName: string)
    ensures var path := AvatarPath(userId, fileName);
            var ext := path[|userId| + 8..];
            && |path| >= |userId| + 8
            && path[..|userId| + 8] == userId + "/avatar."
            && '.' !in ext
            && |ext| <= |fileName| && fileName[|fileName| - |ext|..] == ext
            && (|ext| < |fileName| ==> fileName[|fileName| - |ext| - 1] == '.')
            && ('.' !in fileName ==> ext == fileName)
  {
    var path := AvatarPath(userId, fileName);
    LastPieceIsTail(fileName, '.');
    assert path[|userId| + 8..] == LastPiece(fileName, '.');
  }

  /** Two users whose ids hold no `/` never share an avatar path, whatever
      files they choose. */
  lemma AvatarPathsSeparateUsers(u1: string, u2: string, f1: string, f2: string)
    requires '/' !in u1 && '/' !in u2 && u1 != u2
    ensures AvatarPath(u1, f1) != AvatarPath(u2, f2)
  {
    var p1, p2 := AvatarPath(u1, f1), AvatarPath(u2, f2);
    if |u1| == |u2| {
      var i :| 0 <= i < |u1| && u1[i] != u2[i];
      assert p1[i] == u1[i] && p2[i] == u2[i];
    } else if |u1| < |u2| {
      assert p1[|u1|] == '/' && p2[|u1|] == u2[|u1|];
    } else {
      assert p2[|u2|] == '/' && p1[|u2|] == u1[|u2|];
    }
  }

  /** The end of `uploadAvatar` once the upload replied: an error yields
      `null`, success the file's public URL. */
  function UploadedAvatarUrl(uploadError: Option<string>, publicUrl: string): (url: Option<string>)
    ensures url.None? <==> uploadError.Some?
    ensures url.Some? ==> url.value == publicUrl
  {
    if uploadError.Some? then None else Some(publicUrl)
  }

  /** `{ ...formData, ...(avatar_url && { avatar_url }), onboarding_completed: true }`. */
  function OnboardingPayload(form: OnboardingForm, avatarUrl: Option<string>): (p: ProfileUpdate)
    ensures p.company == Some(Some(form.company)) && p.bio == Some(Some(form.bio))
    ensures p.onboardingCompleted == Some(true)
    ensures p.avatarUrl == if Truthy(avatarUrl) then Some(avatarUrl) else None
    ensures Keys(p) == {Company, Bio, OnboardingCompleted} + (if Truthy(avatarUrl) then {AvatarUrl} else {})
  {
    var formData := NoFields.(company := Some(Some(form.company)), bio := Some(Some(form.bio)));
    var avatar := if Truthy(avatarUrl) then NoFields.(avatarUrl := Some(avatarUrl)) else NoFields;
    Spread(Spread(formData, avatar), NoFields.(onboardingCompleted := Some(true)))
  }

  /** Submitting `company = "Acme"` with no avatar sends exactly
      `{ company: "Acme", bio: "", onboarding_completed: true }`. */
  lemma AcmeWithoutAvatar()
    ensures OnboardingPayload(OnboardingForm("Acme", ""), None)
         == NoFields.(company := Some(Some("Acme")), bio := Some(Some("")), onboardingCompleted := Some(true))
  {
  }

  /** The upsert that a submission sends for a signed-in user leaves a row
      that is onboarded, names the typed organisation and keeps every column
      the form does not mention; with a non-empty organisation, which the
      enabled submit button guarantees, the row is a complete profile. */
  lemma SubmitOnboards(t: Table, user: User, form: OnboardingForm, avatarUrl: Option<string>, now: string)
    ensures var c := StartUpdate(Some(user), OnboardingPayload(form, avatarUrl));
            c.SendUpsert? && c.payload.id == Some(user.id) &&
            var row := Upsert(t, c.payload, now).row;
            && row.id == user.id
            && row.onboardingCompleted
            && row.company == Some(form.company) && row.bio == Some(form.bio)
            && (Truthy(avatarUrl) ==> row.avatarUrl == avatarUrl)
            && (user.id in t ==> row.fullName == t[user.id].fullName && row.email == t[user.id].email)
            && (user.id in t && !Truthy(avatarUrl) ==> row.avatarUrl == t[user.id].avatarUrl)
            && (form.company != "" ==> CompanyWhenOnboarded(row))
  {
  }

  /** What the disabled button protects: a submission made while the button
      is enabled writes a row that is onboarded and names its organisation. */
  lemma EnabledSubmitNamesOrganisation(page: OnboardingPage, t: Table, user: User,
                                       avatarUrl: Option<string>, now: string)
    requires !page.SubmitDisabled()
    ensures var c := StartUpdate(Some(user), OnboardingPayload(page.form, avatarUrl));
            c.SendUpsert? &&
            var row := Upsert(t, c.payload, now).row;
            row.onboardingCompleted && CompanyWhenOnboarded(row)
  {
  }

  class OnboardingPage {
    var loading: bool
    var avatarFile: Option<File>
    var form: OnboardingForm

    constructor ()
      ensures !loading && avatarFile == None && form == OnboardingForm("", "")
    {
      loading, avatarFile, form := false, None, OnboardingForm("", "");
    }

    /** The file input's `onChange`: a chosen file replaces the previous one;
        an empty selection keeps it. */
    method AvatarChosen(file: Option<File>)
      modifies this
      ensures avatarFile == if file.Some? then file else old(avatarFile)
      ensures loading == old(loading) && form == old(form)
    {
      if file.Some? {
        avatarFile := file;
      }
    }

    /** `handleChange`: only the named field takes the new value. */
    method FieldChanged(field: FormField, value: string)
      modifies this
      ensures field == CompanyInput ==> form == old(form).(company := value)
      ensures field == BioInput ==> form == old(form).(bio := value)
      ensures loading == old(loading) && avatarFile == old(avatarFile)
    {
      match field
      case CompanyInput => form := form.(company := value);
      case BioInput => form := form.(bio := value);
    }

    /** The submit button is disabled while a submission runs and while no
        organisation is typed. */
    function SubmitDisabled(): (d: bool)
      reads this
      ensures d <==> loading || form.company == ""
    {
      loading || form.company == ""
    }

    /** `handleSubmit` up to the avatar upload: loading starts, and the upload
        to `AvatarPath` is issued only when a file was chosen and a user is
        signed in (otherwise `uploadAvatar` yields `null` at once). */
    method SubmitStarted(user: Option<User>) returns (upload: Option<string>)
      modifies this
      ensures loading
      ensures upload.Some? <==> avatarFile.Some? && user.Some?
      ensures upload.Some? ==> upload.value == AvatarPath(user.value.id, avatarFile.value.name)
      ensures avatarFile == old(avatarFile) && form == old(form)
    {
      loading := true;
      if avatarFile.Some? && user.Some? {
        upload := Some(AvatarPath(user.value.id, avatarFile.value.name));
      } else {
        upload := None;
      }
    }

    /** The update's reply: an error ends loading and stays on the page;
        success leaves for `/app` by a full page load. */
    method SubmitCompleted(updateError: Option<string>) returns (navigateTo: Option<string>)
      modifies this
      ensures updateError.Some? ==> navigateTo == None && !loading
      ensures updateError.None? ==> navigateTo == Some(AppPath) && loading == old(loading)
      ensures avatarFile == old(avatarFile) && form == old(form)
    {
      if updateError.Some? {
        loading := false;
        navigateTo := None;
      } else {
        navigateTo := Some(AppPath);
      }
    }
  }

  /** A whole submission: upload (answered by `uploadError`, with `publicUrl`
      as the storage's public address), then `updateProfile` against the
      table model (answered by `upsertError`). */
  method Submit(page: OnboardingPage, store: ProfileStore, user: Option<User>, t: Table,
                uploadError: Option<string>, publicUrl: string, upsertError: Option<string>, now: string)
    returns (navigateTo: Option<string>, t': Table)
    modifies page, store
    ensures page.form == old(page.form) && page.avatarFile == old(page.avatarFile)
    ensures user.None? ==> navigateTo == None && !page.loading && t' == t
    ensures user.Some? && upsertError.Some? ==>
              navigateTo == None && !page.loading && t' == t && store.profile == old(store.profile)
    ensures user.Some? && upsertError.None? ==>
              var url := if page.avatarFile.Some? then UploadedAvatarUrl(uploadError, publicUrl) else None;
              var c := StartUpdate(user, OnboardingPayload(page.form, url));
              c.SendUpsert? &&
              var u := Upsert(t, c.payload, now);
              && t' == u.table && store.profile == Some(u.row)
              && navigateTo == Some(AppPath) && page.loading
    ensures user.Some? && upsertError.None? && !old(page.SubmitDisabled()) ==>
              store.profile.Some? && store.profile.value.onboardingCompleted && CompanyWhenOnboarded(store.profile.value)
    ensures user.None? ==> store.profile == old(store.profile)
    ensures store.loading == old(store.loading) && store.error == old(store.error)
  {
    var upload := page.SubmitStarted(user);
    var url: Option<string> := None;
    if upload.Some? {
      url := UploadedAvatarUrl(uploadError, publicUrl);
    }
    var updates := OnboardingPayload(page.form, url);
    var err;
    err, t' := UpdateProfile(store, t, user, updates, upsertError, now);
    navigateTo := page.SubmitCompleted(err);
  }
}
