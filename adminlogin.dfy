/** The admin sign-in form: its fields, the submit flow with the email
    gate, and how `loading` and `error` evolve
    (src/pages/admin/AdminLogin.tsx). */
module AdminLogin {
  import opened Backend
  import opened Account
  import Text
  import AdminPanel

  const DeniedMessage: string := "Access denied. Admin privileges required."
  const FallbackMessage: string := "Invalid credentials or insufficient privileges"

  /** The outcome of signing in with the form's email and password: the
      signed-in account's email (possibly missing), or the error thrown. */
  datatype SignIn = SignedIn(email: Option<string>) | SignInThrew(message: string)

  /** `userCredential.user.email?.includes("admin")`: a case-sensitive
      substring test; a missing email fails it. */
  predicate GrantsAccess(email: Option<string>)
    ensures email.None? ==> !GrantsAccess(email)
    ensures email.Some? && Text.StartsWith(email.value, "admin") ==> GrantsAccess(email)
  {
    email.Some? && Text.Contains(email.value, "admin")
  }

  /** The gate holds exactly when "admin" occurs, letter for letter, in the
      email; an email written without a lower-case "a" (such as
      "ADMIN@SITE.COM") never passes. */
  lemma GateIsCaseSensitiveSubstring(email: Option<string>)
    ensures GrantsAccess(email) <==> email.Some? && exists i :: Text.OccursAt(email.value, "admin", i)
    ensures email.Some? && 'a' !in email.value ==> !GrantsAccess(email)
    ensures email.None? ==> !GrantsAccess(email)
  {
    if email.Some? {
      Text.ContainsIffOccurs(email.value, "admin");
      if Text.Contains(email.value, "admin") {
        Text.ContainsKeepsChars(email.value, "admin", 'a');
      }
    }
  }

  /** `err.message || "Invalid credentials ..."`: never empty. */
  function ErrorText(message: string): (r: string)
    ensures r != ""
    ensures message != "" ==> r == message
    ensures message == "" ==> r == FallbackMessage
  {
    if message != "" then message else FallbackMessage
  }

  datatype LoginState = LoginState(
    loading: bool, error: string, form: map<string, string>, navigations: seq<string>)

  const Initial: LoginState := LoginState(false, "", map["email" := "", "password" := ""], [])

  /** `handleInputChange`: the input named `name` takes `value`. */
  function InputChange(form: map<string, string>, name: string, value: string): (r: map<string, string>)
    ensures name in r && r[name] == value
    ensures r.Keys == form.Keys + {name}
    ensures forall k :: k in form && k != name ==> r[k] == form[k]
  {
    form[name := value]
  }

  /** The state while the sign-in is awaited: busy, previous error cleared. */
  function Submitting(s: LoginState): (r: LoginState)
    ensures r.loading && r.error == ""
    ensures r.form == s.form && r.navigations == s.navigations
  {
    s.(loading := true, error := "")
  }

  /** The state when `handleSubmit` has finished; `signOut` is the outcome
      of the sign-out that follows a denial. */
  function Submitted(s: LoginState, signIn: SignIn, signOut: Outcome): (r: LoginState)
    ensures !r.loading && r.form == s.form
    ensures r.navigations == s.navigations || r.navigations == s.navigations + ["/admin"]
    ensures signIn.SignInThrew? ==> r.error != "" && r.navigations == s.navigations
  {
    var t := Submitting(s);
    match signIn
    case SignInThrew(m) => t.(error := ErrorText(m), loading := false)
    case SignedIn(email) =>
      if !GrantsAccess(email) then
        match signOut
        case Threw(m) => t.(error := ErrorText(m), loading := false)
        case Completed => t.(error := DeniedMessage, loading := false)
      else
        t.(navigations := t.navigations + ["/admin"], loading := false)
  }

  /** Submitting: `loading` is false again at the end of every path, the
      page goes to /admin exactly when the sign-in succeeds and the email
      passes the gate, and an error is shown exactly otherwise: the denial
      text, or the thrown message or its fallback. The form is untouched. */
  lemma SubmitOutcome(s: LoginState, signIn: SignIn, signOut: Outcome)
    ensures Submitting(s).loading && Submitting(s).error == ""
    ensures var t := Submitted(s, signIn, signOut);
      && !t.loading
      && t.form == s.form
      && (signIn.SignedIn? && GrantsAccess(signIn.email) <==> t.navigations == s.navigations + ["/admin"])
      && (!(signIn.SignedIn? && GrantsAccess(signIn.email)) ==> t.navigations == s.navigations)
      && (t.error == "" <==> signIn.SignedIn? && GrantsAccess(signIn.email))
      && (signIn.SignedIn? && !GrantsAccess(signIn.email) && signOut == Completed ==> t.error == DeniedMessage)
      && (signIn.SignInThrew? ==> t.error == ErrorText(signIn.message))
  {
  }

  /** The two admin checks disagree. An account whose email contains
      "admin" but that has no admins document is let through by the form,
      then sent home by the panel, which leaves its `loading` flag true. */
  lemma EmailGateAdmitsNonAdmin(s: LoginState, u: User, signOut: Outcome, fetch: AdminPanel.UsersFetch)
    requires u.email.Some? && Text.StartsWith(u.email.value, "admin")
    ensures Submitted(s, SignedIn(u.email), signOut).navigations == s.navigations + ["/admin"]
    ensures var p := AdminPanel.OnAuthState(AdminPanel.Initial, Some(u), Missing, fetch);
      p.navigations == ["/"] && p.loading
  {
    assert Text.Contains(u.email.value, "admin");
  }

  /** Conversely, an account listed in the admins collection whose email
      lacks "admin" is refused by the form although the panel would admit
      it. */
  lemma EmailGateRefusesListedAdmin(s: LoginState, u: User, docs: seq<AdminPanel.UserDoc>)
    requires u.email.Some? && 'a' !in u.email.value
    ensures Submitted(s, SignedIn(u.email), Completed).error == DeniedMessage
    ensures Submitted(s, SignedIn(u.email), Completed).navigations == s.navigations
    ensures AdminPanel.OnAuthState(AdminPanel.Initial, Some(u), Exists, AdminPanel.Fetched(docs)).navigations == []
  {
    GateIsCaseSensitiveSubstring(u.email);
  }

  class AdminLoginPage {
    var showPassword: bool
    var loading: bool
    var error: string
    var formData: map<string, string>
    /** Paths passed to `navigate`, oldest first. */
    var navigations: seq<string>

    function State(): LoginState
      reads this
    {
      LoginState(loading, error, formData, navigations)
    }

    constructor ()
      ensures State() == Initial && !showPassword
    {
      showPassword := false;
      loading := false;
      error := "";
      formData := map["email" := "", "password" := ""];
      navigations := [];
    }

    method HandleInputChange(name: string, value: string)
      modifies this
      ensures formData == InputChange(old(formData), name, value)
      ensures loading == old(loading) && error == old(error)
      ensures navigations == old(navigations) && showPassword == old(showPassword)
    {
      formData := formData[name := value];
    }

    /** The eye button beside the password field. */
    method TogglePasswordVisibility()
      modifies this
      ensures showPassword == !old(showPassword)
      ensures State() == old(State())
    {
      showPassword := !showPassword;
    }

    /** `handleSubmit`; `pending` is the state while the sign-in is
        awaited. */
    method HandleSubmit(signIn: SignIn, signOut: Outcome) returns (ghost pending: LoginState)
      modifies this
      ensures pending == Submitting(old(State()))
      ensures State() == Submitted(old(State()), signIn, signOut)
      ensures showPassword == old(showPassword)
    {
      loading := true;
      error := "";
      pending := State();
      match signIn {
        case SignInThrew(m) =>
          error := ErrorText(m);
        case SignedIn(email) =>
          if !GrantsAccess(email) {
            match signOut {
              case Threw(m) =>
                error := ErrorText(m);
              case Completed =>
                error := DeniedMessage;
            }
            loading := false;
            return;
          }
          navigations := navigations + ["/admin"];
      }
      loading := false;
    }
  }
}
