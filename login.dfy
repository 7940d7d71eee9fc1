/** The login page of src/pages/Login.tsx: the email field, the submit
    handler's `loading`/`error`/`sent` updates around the sign-in call, the
    "use another address" reset, and the choice of what the page renders. */
module Login {
  import opened Common

  const DashboardPath: string := "/dashboard"

  /** What the page renders. */
  datatype LoginView =
    | Pending
    | Redirect(to: string, replace: bool)
    | SentNotice(email: string)
    | Form(email: string, error: Option<string>, submitDisabled: bool)

  class LoginPage {
    var email: string
    var loading: bool
    var sent: bool
    var error: Option<string>

    /** Once the link is sent nothing is in flight and no error is shown;
        while a request is in flight no error is shown. */
    predicate Valid()
      reads this
    {
      && (sent ==> !loading && error.None?)
      && (loading ==> error.None?)
    }

    constructor ()
      ensures Valid()
      ensures email == "" && !loading && !sent && error == None
    {
      email, loading, sent, error := "", false, false, None;
    }

    /** The render branches, in order: the session check, a signed-in user,
        the sent notice, the form (whose button is disabled exactly while a
        request is in flight). */
    function View(auth: AuthState): (v: LoginView)
      reads this
      ensures v.Pending? <==> auth.loading
      ensures v.Redirect? <==> !auth.loading && auth.user.Some?
      ensures v.Redirect? ==> v == Redirect(DashboardPath, true)
      ensures v.SentNotice? <==> !auth.loading && auth.user.None? && sent
      ensures v.SentNotice? ==> v.email == email
      ensures v.Form? <==> !auth.loading && auth.user.None? && !sent
      ensures v.Form? ==> v.email == email && v.error == error && (v.submitDisabled <==> loading)
    {
      if auth.loading then Pending
      else if auth.user.Some? then Redirect(DashboardPath, true)
      else if sent then SentNotice(email)
      else Form(email, error, loading)
    }

    /** The input's `onChange`: the field holds exactly what was typed. */
    method EmailChanged(value: string)
      modifies this
      ensures email == value
      ensures loading == old(loading) && sent == old(sent) && error == old(error)
    {
      email := value;
    }

    /** `handleSubmit` up to the sign-in call, which receives the email
        untrimmed and unchanged. The form, its only caller, is rendered only
        before the link is sent. */
    method SubmitStarted() returns (signInEmail: string)
      requires Valid() && !sent
      modifies this
      ensures Valid()
      ensures signInEmail == email
      ensures loading && error == None
      ensures email == old(email) && sent == old(sent)
    {
      loading := true;
      error := None;
      signInEmail := email;
    }

    /** The sign-in reply: an error's message is shown, success moves to the
        sent notice; loading ends either way. */
    method SubmitCompleted(signInError: Option<string>)
      requires Valid() && loading
      modifies this
      ensures Valid()
      ensures !loading && email == old(email)
      ensures signInError.Some? ==> error == signInError && !sent
      ensures signInError.None? ==> sent && error == None
    {
      if signInError.Some? {
        error := signInError;
        loading := false;
      } else {
        sent := true;
        loading := false;
      }
    }

    /** "Utiliser une autre adresse": back to the form, the typed address
        still in the field. */
    method UseAnotherAddress()
      requires Valid()
      modifies this
      ensures Valid()
      ensures !sent
      ensures email == old(email) && loading == old(loading) && error == old(error)
    {
      sent := false;
    }
  }

  /** A whole successful round: the address typed is the address signed in
      with, the page ends on the sent notice showing it, and the reset brings
      back the form with that address still filled in. */
  method SignInRound(typed: string) returns (signedInWith: string, afterSend: LoginView, afterReset: LoginView)
    ensures signedInWith == typed
    ensures afterSend == SentNotice(typed)
    ensures afterReset == Form(typed, None, false)
  {
    var page := new LoginPage();
    var signedOut := AuthState(None, false);
    page.EmailChanged(typed);
    signedInWith := page.SubmitStarted();
    page.SubmitCompleted(None);
    afterSend := page.View(signedOut);
    page.UseAnotherAddress();
    afterReset := page.View(signedOut);
  }
}
