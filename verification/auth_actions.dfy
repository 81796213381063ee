/**
 * The website's auth server actions (`website/src/app/actions/auth/action.ts`):
 * each validates its form with a credential schema before it talks to the
 * auth provider, and hands back the issues, the provider's error, a message,
 * or `null`.
 *
 * The provider is not modelled: every call it would receive is recorded in
 * order, and its reply is a parameter that is consulted only once the call
 * has been made. `revalidatePath` has no observable effect here.
 */
module AuthActions {
  import opened Wrappers
  import Schemas

  /** `FormData` as the actions read it: `get` yields the value or nothing. */
  type FormData = map<string, string>

  function Get(form: FormData, key: string): (v: Option<string>)
    ensures v.Some? <==> key in form
    ensures v.Some? ==> v.value == form[key]
  {
    if key in form then Some(form[key]) else None
  }

  datatype AuthError = AuthError(message: string)

  /** The calls an action makes on the auth provider, in the order made. */
  datatype ProviderCall =
    | SignInWithPassword(email: string, password: string)
    | SignUp(email: string, password: string, fullName: string)
    | SignUpWithForm(data: Schemas.SignUpData)
    | ResetPasswordForEmail(email: string, redirectTo: string)
    | SignOut
    | GetUser

  /** The provider's answer to `signInWithPassword`. */
  datatype SignInReply = SignInFailed(error: AuthError) | SignedIn(emailConfirmed: bool)

  /**
   * What an action hands back to the page: `null`, a `{message}` object, the
   * provider's error, the issue list, or the navigation `redirect` performs;
   * `Done` is an action that returns nothing.
   */
  datatype Response =
    | Null
    | MessageBody(message: string)
    | Error(error: AuthError)
    | Issues(issues: seq<Schemas.Issue>)
    | Redirect(path: string)
    | Done

  datatype Run = Run(response: Response, calls: seq<ProviderCall>)

  const ForgotPasswordMessage: string :=
    "If an account with that email exists, a password reset link has been sent."

  /** The reset link target built from `NEXT_PUBLIC_BASE_URL`. */
  function ResetRedirect(baseUrl: string): string {
    baseUrl + "/auth/reset-password"
  }

  /** `formData.get('terms') === 'true'`. */
  predicate TermsAccepted(form: FormData) {
    Get(form, "terms") == Some("true")
  }

  function LoginSchema(isEmail: string -> bool, form: FormData): Schemas.Parsed<Schemas.SignInData> {
    Schemas.SignIn(isEmail, Get(form, "email"), Get(form, "password"))
  }

  function SignupSchema(isEmail: string -> bool, form: FormData): Schemas.Parsed<Schemas.SignUpData> {
    Schemas.SignUp(isEmail, Get(form, "name"), Get(form, "email"), Get(form, "password"), TermsAccepted(form))
  }

  function ForgotSchema(isEmail: string -> bool, form: FormData): Schemas.Parsed<Schemas.EmailData> {
    Schemas.ForgotPassword(isEmail, Get(form, "email"))
  }

  /** `login`: issues without a provider call, else one sign-in whose error is returned as-is. */
  function Login(isEmail: string -> bool, form: FormData, reply: SignInReply): (r: Run)
    ensures r.calls == [] <==> LoginSchema(isEmail, form).Invalid?
    ensures r.calls == [] ==> r.response == Issues(LoginSchema(isEmail, form).issues)
    ensures r.calls != [] ==> r.calls == [SignInWithPassword(form["email"], form["password"])]
    ensures r.calls != [] && reply.SignInFailed? ==> r.response == Error(reply.error)
    ensures r.response == Null <==> r.calls != [] && reply.SignedIn?
  {
    var parsed := LoginSchema(isEmail, form);
    if parsed.Invalid? then Run(Issues(parsed.issues), [])
    else
      var calls := [SignInWithPassword(parsed.data.email, parsed.data.password)];
      match reply
      case SignInFailed(e) => Run(Error(e), calls)
      case SignedIn(_) => Run(Null, calls)
  }

  /**
   * `signup`: the name travels as `fullName` metadata next to the unchanged
   * email and password; `terms` counts only as the exact string "true".
   */
  function Signup(isEmail: string -> bool, form: FormData, reply: Option<AuthError>): (r: Run)
    ensures r.calls == [] <==> SignupSchema(isEmail, form).Invalid?
    ensures r.calls == [] ==> r.response == Issues(SignupSchema(isEmail, form).issues)
    ensures r.calls != [] ==> TermsAccepted(form) && r.calls == [SignUp(form["email"], form["password"], form["name"])]
    ensures r.calls != [] && reply.Some? ==> r.response == Error(reply.value)
    ensures r.response == Null <==> r.calls != [] && reply.None?
  {
    var parsed := SignupSchema(isEmail, form);
    if parsed.Invalid? then Run(Issues(parsed.issues), [])
    else
      var calls := [SignUp(parsed.data.email, parsed.data.password, parsed.data.name)];
      if reply.Some? then Run(Error(reply.value), calls) else Run(Null, calls)
  }

  /** `forgotPassword`: issues, the provider error, or exactly the fixed reset message. */
  function ForgotPassword(isEmail: string -> bool, baseUrl: string, form: FormData, reply: Option<AuthError>): (r: Run)
    ensures r.calls == [] <==> ForgotSchema(isEmail, form).Invalid?
    ensures r.calls == [] ==> r.response == Issues(ForgotSchema(isEmail, form).issues)
    ensures r.calls != [] ==> r.calls == [ResetPasswordForEmail(form["email"], ResetRedirect(baseUrl))]
    ensures r.calls != [] && reply.Some? ==> r.response == Error(reply.value)
    ensures r.response.MessageBody? <==> r.calls != [] && reply.None?
    ensures r.response.MessageBody? ==> r.response.message == ForgotPasswordMessage
  {
    var parsed := ForgotSchema(isEmail, form);
    if parsed.Invalid? then Run(Issues(parsed.issues), [])
    else
      var calls := [ResetPasswordForEmail(parsed.data.email, ResetRedirect(baseUrl))];
      if reply.Some? then Run(Error(reply.value), calls) else Run(MessageBody(ForgotPasswordMessage), calls)
  }

  /** `logout`: a sign-out error comes back without navigation; success goes home. */
  function Logout(reply: Option<AuthError>): (r: Run)
    ensures r.calls == [SignOut]
    ensures r.response.Redirect? <==> reply.None?
    ensures reply.Some? ==> r.response == Error(reply.value)
    ensures r.response.Redirect? ==> r.response.path == "/"
  {
    if reply.Some? then Run(Error(reply.value), [SignOut]) else Run(Redirect("/"), [SignOut])
  }

  /**
   * `checkAuth`: `authenticated` is false when `getUser` errs or finds no
   * user. An unauthenticated caller always goes to `/auth`; an authenticated
   * one goes to a non-empty `redirectTo` or stays.
   */
  function CheckAuth(authenticated: bool, redirectTo: Option<string>): (r: Run)
    ensures r.calls == [GetUser]
    ensures !authenticated ==> r.response == Redirect("/auth")
    ensures authenticated && redirectTo.Some? && redirectTo.value != "" ==> r.response == Redirect(redirectTo.value)
    ensures r.response == Done <==> authenticated && (redirectTo.None? || redirectTo.value == "")
  {
    if !authenticated then Run(Redirect("/auth"), [GetUser])
    else if redirectTo.Some? && redirectTo.value != "" then Run(Redirect(redirectTo.value), [GetUser])
    else Run(Done, [GetUser])
  }

  /** A sign-up form whose `terms` field is anything but "true" is refused before the provider is asked. */
  lemma SignupNeedsTermsTrue(isEmail: string -> bool, form: FormData, reply: Option<AuthError>)
    requires !TermsAccepted(form)
    ensures Signup(isEmail, form, reply).calls == []
    ensures Schemas.Issue(Schemas.Terms, Schemas.TermsNotAccepted) in Signup(isEmail, form, reply).response.issues
  {
  }
}
