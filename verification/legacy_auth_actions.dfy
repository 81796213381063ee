/**
 * The older copy of the auth server actions (`src/app/actions/auth/action.ts`).
 * It validates with the same credential schemas (`src/utils/zod/schemas.ts`
 * holds the website's sign-in, sign-up and forgot-password schemas word for
 * word), but a successful sign-in or sign-up navigates instead of returning
 * `null`, and sign-up hands the whole validated object to the provider.
 * Its `forgotPassword` and `logout` are the website's, line for line.
 */
module LegacyAuthActions {
  import opened Wrappers
  import Schemas
  import opened AuthActions

  /**
   * `login`: issues without a provider call; a provider error as-is; on
   * success a redirect that depends on whether the email is confirmed.
   */
  function Login(isEmail: string -> bool, form: FormData, reply: SignInReply): (r: Run)
    ensures r.calls == [] <==> LoginSchema(isEmail, form).Invalid?
    ensures r.calls == [] ==> r.response == Issues(LoginSchema(isEmail, form).issues)
    ensures r.calls != [] ==> r.calls == [SignInWithPassword(form["email"], form["password"])]
    ensures r.calls != [] && reply.SignInFailed? ==> r.response == Error(reply.error)
    ensures r.response.Redirect? <==> r.calls != [] && reply.SignedIn?
    ensures r.response.Redirect? ==>
      r.response.path == (if reply.emailConfirmed then "/dashboard" else "/confirm-email")
    ensures r.response != Null
  {
    var parsed := LoginSchema(isEmail, form);
    if parsed.Invalid? then Run(Issues(parsed.issues), [])
    else
      var calls := [SignInWithPassword(parsed.data.email, parsed.data.password)];
      match reply
      case SignInFailed(e) => Run(Error(e), calls)
      case SignedIn(confirmed) =>
        if !confirmed then Run(Redirect("/confirm-email"), calls) else Run(Redirect("/dashboard"), calls)
  }

  /** `signup`: the validated object goes to the provider as it is; success goes to the confirm page. */
  function Signup(isEmail: string -> bool, form: FormData, reply: Option<AuthError>): (r: Run)
    ensures r.calls == [] <==> SignupSchema(isEmail, form).Invalid?
    ensures r.calls == [] ==> r.response == Issues(SignupSchema(isEmail, form).issues)
    ensures r.calls != [] ==>
      r.calls == [SignUpWithForm(Schemas.SignUpData(form["name"], form["email"], form["password"], true))]
    ensures r.calls != [] && reply.Some? ==> r.response == Error(reply.value)
    ensures r.response.Redirect? <==> r.calls != [] && reply.None?
    ensures r.response.Redirect? ==> r.response.path == "/auth/confirm-email"
  {
    var parsed := SignupSchema(isEmail, form);
    if parsed.Invalid? then Run(Issues(parsed.issues), [])
    else
      var calls := [SignUpWithForm(parsed.data)];
      if reply.Some? then Run(Error(reply.value), calls) else Run(Redirect("/auth/confirm-email"), calls)
  }

  /**
   * The two sign-in actions agree on validation, on the call and on errors;
   * they differ only in what a successful sign-in produces.
   */
  lemma LoginVersionsAgree(isEmail: string -> bool, form: FormData, reply: SignInReply)
    ensures Login(isEmail, form, reply).calls == AuthActions.Login(isEmail, form, reply).calls
    ensures AuthActions.Login(isEmail, form, reply).response == Null
        <==> Login(isEmail, form, reply).response.Redirect?
    ensures !Login(isEmail, form, reply).response.Redirect? ==>
      Login(isEmail, form, reply).response == AuthActions.Login(isEmail, form, reply).response
  {
  }

  /**
   * The two sign-up actions accept the same forms and return the same issues
   * and errors; only the website's call carries the name as `fullName`.
   */
  lemma SignupVersionsAgree(isEmail: string -> bool, form: FormData, reply: Option<AuthError>)
    ensures (Signup(isEmail, form, reply).calls == []) == (AuthActions.Signup(isEmail, form, reply).calls == [])
    ensures !Signup(isEmail, form, reply).response.Redirect? ==>
      Signup(isEmail, form, reply).response == AuthActions.Signup(isEmail, form, reply).response
    ensures AuthActions.Signup(isEmail, form, reply).calls != [] ==>
      AuthActions.Signup(isEmail, form, reply).calls[0].fullName == form["name"]
  {
  }

  /** Every action of this copy that reached the provider returns the provider's error verbatim. */
  lemma ProviderErrorsVerbatim(isEmail: string -> bool, baseUrl: string, form: FormData, e: AuthError)
    ensures Login(isEmail, form, SignInFailed(e)).calls != [] ==>
      Login(isEmail, form, SignInFailed(e)).response == Error(e)
    ensures Signup(isEmail, form, Some(e)).calls != [] ==>
      Signup(isEmail, form, Some(e)).response == Error(e)
    ensures ForgotPassword(isEmail, baseUrl, form, Some(e)).calls != [] ==>
      ForgotPassword(isEmail, baseUrl, form, Some(e)).response == Error(e)
    ensures Logout(Some(e)).response == Error(e)
  {
  }
}
