/** The settings page of src/pages/Settings.tsx: the form filled from the
    loaded profile, the exact update it sends, and the `saving`/`saved` flags
    around the save (the two-second reset of `saved` is an explicit timer
    event). */
module Settings {
  import opened Common
  import opened DatabaseTypes
  import opened ProfilesTable
  import opened UseProfile

  datatype SettingsForm = SettingsForm(fullName: string, company: string, bio: string)

  /** The `name` attribute of the form's inputs. */
  datatype FormField = FullNameInput | CompanyInput | BioInput

  const SaveLabel: string := "Enregistrer"
  const SavedLabel: string := "Enregistré"

  datatype SettingsView =
    | Pending
    | FormView(form: SettingsForm, submitDisabled: bool, buttonLabel: string)

  /** `value || ''` on a nullable string. */
  function OrEmpty(s: Option<string>): (r: string)
    ensures s.None? ==> r == ""
    ensures s.Some? ==> r == s.value
  {
    if s.Some? then s.value else ""
  }

  /** The form a loaded profile fills in: each nullable column, `null`
      shown as `''`. */
  function FormFromProfile(p: Profile): (f: SettingsForm)
    ensures f.fullName == (if p.fullName.Some? then p.fullName.value else "")
    ensures f.company == (if p.company.Some? then p.company.value else "")
    ensures f.bio == (if p.bio.Some? then p.bio.value else "")
  {
    SettingsForm(OrEmpty(p.fullName), OrEmpty(p.company), OrEmpty(p.bio))
  }

  /** `updateProfile(formData)`'s argument: the three form fields and nothing
      else, empty strings included. */
  function SettingsPayload(f: SettingsForm): (u: ProfileUpdate)
    ensures Keys(u) == {FullName, Company, Bio}
    ensures u.fullName == Some(Some(f.fullName))
    ensures u.company == Some(Some(f.company))
    ensures u.bio == Some(Some(f.bio))
  {
    NoFields.(fullName := Some(Some(f.fullName)), company := Some(Some(f.company)), bio := Some(Some(f.bio)))
  }

  /** Saving the form exactly as the profile filled it leaves the row as it
      was if and only if none of the three columns was `null`; a `null`
      column comes back as `''`. */
  lemma SaveUnchangedForm(p: Profile)
    ensures var r := Apply(p, SettingsPayload(FormFromProfile(p)));
            && r == p.(fullName := Some(OrEmpty(p.fullName)), company := Some(OrEmpty(p.company)), bio := Some(OrEmpty(p.bio)))
            && (r == p <==> p.fullName.Some? && p.company.Some? && p.bio.Some?)
  {
  }

  /** A save never writes the onboarding flag, the avatar or the email: an
      existing row keeps them, and a row the save has to create starts as not
      onboarded. */
  lemma SaveKeepsOtherColumns(t: Table, user: User, f: SettingsForm, now: string)
    ensures var c := StartUpdate(Some(user), SettingsPayload(f));
            c.SendUpsert? &&
            var row := Upsert(t, c.payload, now).row;
            && row.fullName == Some(f.fullName) && row.company == Some(f.company) && row.bio == Some(f.bio)
            && (user.id in t ==>
                  && row.onboardingCompleted == t[user.id].onboardingCompleted
                  && row.avatarUrl == t[user.id].avatarUrl
                  && row.email == t[user.id].email)
            && (user.id !in t ==> !row.onboardingCompleted)
  {
  }

  /** Nothing stops a save from emptying the organisation of an onboarded
      profile: the row stays onboarded with `company = ''`. */
  lemma EmptiedCompanyStaysOnboarded(user: User, onboarded: Profile, now: string)
    requires onboarded.id == user.id && onboarded.onboardingCompleted && CompanyWhenOnboarded(onboarded)
    ensures var t := map[user.id := onboarded];
            var c := StartUpdate(Some(user), SettingsPayload(FormFromProfile(onboarded).(company := "")));
            c.SendUpsert? &&
            var row := Upsert(t, c.payload, now).row;
            row.onboardingCompleted && row.company == Some("") && !CompanyWhenOnboarded(row)
  {
  }

  class SettingsPage {
    var saving: bool
    var saved: bool
    var form: SettingsForm

    /** "Enregistré" is never shown while a save is running. */
    predicate Valid()
      reads this
    {
      saving ==> !saved
    }

    constructor ()
      ensures Valid()
      ensures !saving && !saved && form == SettingsForm("", "", "")
    {
      saving, saved, form := false, false, SettingsForm("", "", "");
    }

    /** What the page renders: a spinner while the profile loads, then the
        form; the button is disabled exactly while saving and reads
        "Enregistré" exactly after a save. */
    function View(profileLoading: bool): (v: SettingsView)
      reads this
      ensures v.Pending? <==> profileLoading
      ensures v.FormView? ==> v.form == form
      ensures v.FormView? ==> (v.submitDisabled <==> saving)
      ensures v.FormView? ==> (v.buttonLabel == SavedLabel <==> saved)
      ensures v.FormView? ==> v.buttonLabel in {SaveLabel, SavedLabel}
    {
      if profileLoading then Pending
      else FormView(form, saving, if saved then SavedLabel else SaveLabel)
    }

    /** The effect on `[profile]`: a loaded profile refills the form; `null`
        leaves the form as it is. */
    method ProfileChanged(profile: Option<Profile>)
      requires Valid()
      modifies this
      ensures Valid()
      ensures form == if profile.Some? then FormFromProfile(profile.value) else old(form)
      ensures saving == old(saving) && saved == old(saved)
    {
      if profile.Some? {
        form := FormFromProfile(profile.value);
      }
    }

    /** `handleChange`: only the named field takes the new value. */
    method FieldChanged(field: FormField, value: string)
      requires Valid()
      modifies this
      ensures Valid()
      ensures field == FullNameInput ==> form == old(form).(fullName := value)
      ensures field == CompanyInput ==> form == old(form).(company := value)
      ensures field == BioInput ==> form == old(form).(bio := value)
      ensures saving == old(saving) && saved == old(saved)
    {
      match field
      case FullNameInput => form := form.(fullName := value);
      case CompanyInput => form := form.(company := value);
      case BioInput => form := form.(bio := value);
    }

    /** `handleSubmit` up to the update: saving starts, `saved` is cleared,
        and the form is sent as it stands (no check on the organisation). */
    method SubmitStarted() returns (updates: ProfileUpdate)
      requires Valid()
      modifies this
      ensures Valid()
      ensures saving && !saved && form == old(form)
      ensures updates == SettingsPayload(form)
    {
      saving := true;
      saved := false;
      updates := SettingsPayload(form);
    }

    /** The update's reply: success marks the form saved and arms the reset
        timer; failure leaves `saved` false. Saving ends either way. */
    method SubmitCompleted(updateError: Option<string>) returns (timerArmed: bool)
      requires Valid() && saving
      modifies this
      ensures Valid()
      ensures !saving && form == old(form)
      ensures saved == timerArmed == updateError.None?
    {
      if updateError.None? {
        saved := true;
        timerArmed := true;
      } else {
        timerArmed := false;
      }
      saving := false;
    }

    /** The reset timer fires. */
    method TimerFired()
      requires Valid()
      modifies this
      ensures Valid()
      ensures !saved && saving == old(saving) && form == old(form)
    {
      saved := false;
    }
  }

  /** A whole save against the table model, the upsert answered by
      `upsertError`. */
  method Save(page: SettingsPage, store: ProfileStore, user: Option<User>, t: Table,
              upsertError: Option<string>, now: string)
    returns (timerArmed: bool, t': Table)
    requires page.Valid()
    modifies page, store
    ensures page.Valid() && !page.saving && page.form == old(page.form)
    ensures user.None? ==> !page.saved && !timerArmed && t' == t
    ensures user.Some? && upsertError.Some? ==>
              !page.saved && !timerArmed && t' == t && store.profile == old(store.profile)
    ensures user.Some? && upsertError.None? ==>
              var u := Upsert(t, StartUpdate(user, SettingsPayload(page.form)).payload, now);
              page.saved && timerArmed && t' == u.table && store.profile == Some(u.row)
    ensures user.None? ==> store.profile == old(store.profile)
    ensures store.loading == old(store.loading) && store.error == old(store.error)
  {
    var updates := page.SubmitStarted();
    var err;
    err, t' := UpdateProfile(store, t, user, updates, upsertError, now);
    timerArmed := page.SubmitCompleted(err);
  }
}
