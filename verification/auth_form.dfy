/**
 * The client half of authentication (`website/src/components/auth/auth-form.tsx`):
 * which view is shown, how the views are wired to each other, how each
 * form reacts to its server action's reply, and how an error message is
 * rendered as a list.
 *
 * Toasts, animation, loading flags and the form library are not modelled.
 * A form's reply is what the browser receives from the server action.
 */
module AuthForm {
  import opened Wrappers
  import opened Text
  import Schemas
  import AuthActions
  import Sequences

  // ---------------------------------------------------------------------------
  // Views
  // ---------------------------------------------------------------------------

  datatype View = SignIn | SignUp | ForgotPassword | ResetSuccess | MagicLink | MagicLinkSuccess | VerifyOtp

  /** The `view` query value of each view. */
  function ViewName(v: View): string {
    match v
    case SignIn => "sign-in"
    case SignUp => "sign-up"
    case ForgotPassword => "forgot-password"
    case ResetSuccess => "reset-success"
    case MagicLink => "magic-link"
    case MagicLinkSuccess => "magic-link-success"
    case VerifyOtp => "verify-otp"
  }

  /** `parseAsStringEnum(...).withDefault(SIGN_IN)`: a known value names its view, anything else is sign-in. */
  function ParseView(query: Option<string>): (v: View)
    ensures query.Some? && query.value == "sign-up" ==> v == SignUp
    ensures query.Some? && query.value == "forgot-password" ==> v == ForgotPassword
    ensures query.Some? && query.value == "reset-success" ==> v == ResetSuccess
    ensures query.Some? && query.value == "magic-link" ==> v == MagicLink
    ensures query.Some? && query.value == "magic-link-success" ==> v == MagicLinkSuccess
    ensures query.Some? && query.value == "verify-otp" ==> v == VerifyOtp
    ensures query.None? ==> v == SignIn
  {
    if query.None? then SignIn
    else if query.value == "sign-up" then SignUp
    else if query.value == "forgot-password" then ForgotPassword
    else if query.value == "reset-success" then ResetSuccess
    else if query.value == "magic-link" then MagicLink
    else if query.value == "magic-link-success" then MagicLinkSuccess
    else if query.value == "verify-otp" then VerifyOtp
    else SignIn
  }

  /** Parsing is the inverse of naming, and every other value falls back to sign-in. */
  lemma ParseViewName(v: View, other: string)
    requires forall w: View :: ViewName(w) != other
    ensures ParseView(Some(ViewName(v))) == v
    ensures ParseView(Some(other)) == SignIn
  {
    assert ViewName(SignUp) != other && ViewName(ForgotPassword) != other && ViewName(ResetSuccess) != other;
    assert ViewName(MagicLink) != other && ViewName(MagicLinkSuccess) != other && ViewName(VerifyOtp) != other;
  }

  /**
   * The `setView` callbacks each view is given and actually wires to a
   * button or to a successful submission.
   */
  function Next(v: View): (next: set<View>)
    ensures next != {}
  {
    match v
    case SignIn => {ForgotPassword, SignUp, MagicLink}
    case SignUp => {SignIn}
    case ForgotPassword => {SignIn, ResetSuccess, VerifyOtp}
    case ResetSuccess => {SignIn, VerifyOtp}
    case MagicLink => {SignIn, MagicLinkSuccess}
    case MagicLinkSuccess => {SignIn}
    case VerifyOtp => {ForgotPassword}
  }

  /** Views reachable in at most two steps. */
  function WithinTwo(v: View): set<View> {
    {v} + Next(v) + set w, u | w in Next(v) && u in Next(w) :: u
  }

  /** Every view is reachable from sign-in, and every view leads back to sign-in, within two steps. */
  lemma ViewsStronglyConnected(v: View)
    ensures v in WithinTwo(SignIn)
    ensures SignIn in WithinTwo(v)
  {
    match v
    case SignIn =>
    case SignUp =>
    case ForgotPassword =>
    case ResetSuccess => assert ForgotPassword in Next(SignIn) && ResetSuccess in Next(ForgotPassword);
    case MagicLink =>
    case MagicLinkSuccess => assert MagicLink in Next(SignIn) && MagicLinkSuccess in Next(MagicLink);
    case VerifyOtp =>
      assert ForgotPassword in Next(SignIn) && VerifyOtp in Next(ForgotPassword);
      assert ForgotPassword in Next(VerifyOtp) && SignIn in Next(ForgotPassword);
  }

  // ---------------------------------------------------------------------------
  // Error rendering
  // ---------------------------------------------------------------------------

  /** Every piece trimmed, in place. */
  function TrimAll(parts: seq<string>): (r: seq<string>)
    ensures |r| == |parts|
    ensures forall i | 0 <= i < |parts| :: r[i] == Trim(JavaScript, parts[i])
  {
    seq(|parts|, i requires 0 <= i < |parts| => Trim(JavaScript, parts[i]))
  }

  predicate NotBlank(t: string) { t != "" }

  /**
   * The bullet items: the pieces trimmed, those left empty dropped, the rest
   * kept in their order, each as often as it occurs.
   */
  function Bullets(parts: seq<string>): (r: seq<string>)
    ensures |r| <= |parts|
    ensures |parts| > 0 && Trim(JavaScript, parts[0]) != "" ==> |r| > 0 && r[0] == Trim(JavaScript, parts[0])
    ensures forall i | 0 <= i < |r| :: r[i] != ""
  {
    if |parts| == 0 then []
    else
      var t := Trim(JavaScript, parts[0]);
      (if t != "" then [t] else []) + Bullets(parts[1..])
  }

  /** The bullet items are the trimmed pieces filtered by non-blankness. */
  lemma {:induction false} BulletsIsFilter(parts: seq<string>)
    ensures Bullets(parts) == Sequences.Filter(TrimAll(parts), NotBlank)
  {
    if |parts| > 0 {
      var all := TrimAll(parts);
      assert all[0] == Trim(JavaScript, parts[0]) && all[1..] == TrimAll(parts[1..]);
      BulletsIsFilter(parts[1..]);
    }
  }

  /**
   * The bullet items are exactly the non-blank trimmed pieces, each as often
   * as it occurs, in their order.
   */
  lemma BulletsSelectInOrder(parts: seq<string>)
    ensures Sequences.Selects(Bullets(parts), TrimAll(parts), NotBlank)
    ensures Sequences.IsSubsequence(Bullets(parts), TrimAll(parts))
  {
    BulletsIsFilter(parts);
    Sequences.FilterSelects(TrimAll(parts), NotBlank);
    Sequences.FilterIsSubsequence(TrimAll(parts), NotBlank);
  }

  datatype Rendered = NoError | Plain(text: string) | BulletList(items: seq<string>)

  /** `AuthError`: nothing for no message, a list when it holds a dash, else the message itself. */
  function RenderError(message: Option<string>): (r: Rendered)
    ensures message.None? || message.value == "" <==> r == NoError
    ensures r.Plain? ==> message == Some(r.text) && '-' !in r.text
    ensures r.BulletList? ==> (message.Some? && '-' in message.value
                               && r.items == Bullets(Split(message.value, '-')))
  {
    if message.None? || message.value == "" then NoError
    else if '-' in message.value then BulletList(Bullets(Split(message.value, '-')))
    else Plain(message.value)
  }

  /** How issue lists are shown: their messages joined with a line break and a dash. */
  function JoinIssues(messages: seq<string>): string {
    Join(messages, "\n- ")
  }

  /** A message fit to be a bullet: non-empty, dash-free, and without surrounding whitespace. */
  predicate Bulletable(m: string) {
    m != "" && '-' !in m && !IsSpace(JavaScript, m[0]) && !IsSpace(JavaScript, m[|m| - 1])
  }

  /** Whitespace around a bulletable message is exactly what `trim` removes. */
  lemma {:induction false} TrimPadded(lead: string, m: string, tail: string)
    requires All(lead, c => IsSpace(JavaScript, c)) && All(tail, c => IsSpace(JavaScript, c))
    requires Bulletable(m)
    ensures Trim(JavaScript, lead + m + tail) == m
  {
    assert lead + m + tail == lead + (m + tail);
    TrimStartAfterSpaces(JavaScript, lead, m + tail);
    assert TrimStart(JavaScript, m + tail) == m + tail;
    TrimEndBeforeSpaces(JavaScript, m, tail);
  }

  /** The pieces of a (padded) issue join are the messages again. */
  lemma {:induction false} BulletsOfJoin(lead: string, ms: seq<string>)
    requires |ms| >= 1
    requires lead == "" || lead == " "
    requires forall i | 0 <= i < |ms| :: Bulletable(ms[i])
    ensures Bullets(Split(lead + JoinIssues(ms), '-')) == ms
    decreases |ms|
  {
    assert All(lead, c => IsSpace(JavaScript, c));
    assert All("\n", c => IsSpace(JavaScript, c));
    if |ms| == 1 {
      assert lead + JoinIssues(ms) == lead + ms[0] + "";
      assert '-' !in lead + ms[0];
      SplitNoSep(lead + ms[0], '-');
      TrimPadded(lead, ms[0], "");
      assert Bullets([lead + ms[0]]) == [ms[0]] + Bullets([]);
    } else {
      var head := lead + ms[0] + "\n";
      var rest := " " + JoinIssues(ms[1..]);
      assert lead + JoinIssues(ms) == head + ['-'] + rest;
      assert '-' !in head;
      SplitPrefix(head, rest, '-');
      TrimPadded(lead, ms[0], "\n");
      BulletsOfJoin(" ", ms[1..]);
      var parts := [head] + Split(rest, '-');
      assert parts[1..] == Split(rest, '-');
    }
  }

  /**
   * An issue list of two or more bulletable messages is rendered as exactly
   * those messages, one bullet each; a single message is rendered as is.
   */
  lemma IssueListRoundTrip(ms: seq<string>)
    requires |ms| >= 1
    requires forall i | 0 <= i < |ms| :: Bulletable(ms[i])
    ensures |ms| >= 2 ==> RenderError(Some(JoinIssues(ms))) == BulletList(ms)
    ensures |ms| == 1 ==> RenderError(Some(JoinIssues(ms))) == Plain(ms[0])
  {
    if |ms| >= 2 {
      var j := JoinIssues(ms);
      assert j == ms[0] + "\n- " + JoinIssues(ms[1..]);
      assert j[|ms[0]| + 1] == '-';
      BulletsOfJoin("", ms);
      assert "" + j == j;
    }
  }

  // ---------------------------------------------------------------------------
  // Replies and submissions
  // ---------------------------------------------------------------------------

  /** A server action's reply as a form sees it, or the error its call threw (with its message, if any). */
  datatype Reply = NullReply | MessageReply(message: string) | IssueReply(messages: seq<string>) | Threw(error: Option<string>)

  /** The reply a form receives from an action that answered without navigating. */
  function ReplyOf(r: AuthActions.Response): (reply: Reply)
    requires r.Null? || r.MessageBody? || r.Error? || r.Issues?
    ensures r.Null? <==> reply.NullReply?
    ensures r.MessageBody? ==> reply == MessageReply(r.message)
    ensures r.Error? ==> reply == MessageReply(r.error.message)
    ensures r.Issues? ==> (reply.IssueReply? && |reply.messages| == |r.issues|
                           && forall i | 0 <= i < |r.issues| :: reply.messages[i] == Schemas.Message(r.issues[i]))
  {
    match r
    case Null => NullReply
    case MessageBody(m) => MessageReply(m)
    case Error(e) => MessageReply(e.message)
    case Issues(issues) => IssueReply(seq(|issues|, i requires 0 <= i < |issues| => Schemas.Message(issues[i])))
  }

  /** Where the page goes after a submission. */
  datatype Move = Stay | ToView(view: View) | Navigate(path: string)

  /** The form's state after a submission: the error shown, the verification hint, and the move. */
  datatype Submitted = Submitted(error: Option<string>, needsVerification: bool, move: Move)

  const Unexpected := "An unexpected error occurred"
  const VerifyFirst := "Please verify your email address before signing in. Check your inbox for the verification link."

  /** The error of a thrown call: its message when it is an `Error`, else the generic text. */
  function ThrownText(error: Option<string>): (t: string)
    ensures error.Some? ==> t == error.value
    ensures error.None? ==> t == Unexpected
  {
    error.GetOr(Unexpected)
  }

  /** The error an issue reply sets: the join of a non-empty list, nothing for an empty one. */
  function IssuesError(messages: seq<string>): (e: Option<string>)
    ensures |messages| == 0 <==> e.None?
    ensures |messages| > 0 ==> e == Some(JoinIssues(messages))
  {
    if |messages| > 0 then Some(JoinIssues(messages)) else None
  }

  /** Sign-in `onSubmit`; `redirect` is the page's `redirect` query parameter. */
  function SignInSubmitted(reply: Reply, redirect: Option<string>): (s: Submitted)
    ensures reply.NullReply? <==> s.move.Navigate?
    ensures reply.NullReply? && redirect.Some? && redirect.value != "" ==> s == Submitted(None, false, Navigate(redirect.value))
    ensures reply.NullReply? && !(redirect.Some? && redirect.value != "") ==> s == Submitted(None, false, Navigate("/dashboard"))
    ensures s.needsVerification <==> reply.MessageReply? && Contains(Lower(reply.message), "email not confirmed")
    ensures s.needsVerification ==> s.error == Some(VerifyFirst)
    ensures reply.MessageReply? && !s.needsVerification ==> s == Submitted(Some(reply.message), false, Stay)
    ensures reply.IssueReply? ==> s == Submitted(IssuesError(reply.messages), false, Stay)
    ensures reply.Threw? ==> s == Submitted(Some(ThrownText(reply.error)), false, Stay)
  {
    match reply
    case NullReply => Submitted(None, false, Navigate(if redirect.Some? && redirect.value != "" then redirect.value else "/dashboard"))
    case MessageReply(m) =>
      if Contains(Lower(m), "email not confirmed") then Submitted(Some(VerifyFirst), true, Stay)
      else Submitted(Some(m), false, Stay)
    case IssueReply(ms) => Submitted(IssuesError(ms), false, Stay)
    case Threw(e) => Submitted(Some(ThrownText(e)), false, Stay)
  }

  /** Sign-up `onSubmit`: success goes back to sign-in; a throw always shows the generic text. */
  function SignUpSubmitted(reply: Reply): (s: Submitted)
    ensures s.move == ToView(SignIn) <==> reply.NullReply?
    ensures s.move != ToView(SignIn) ==> s.move == Stay
    ensures reply.NullReply? ==> s.error.None?
    ensures reply.MessageReply? ==> s.error == Some(reply.message)
    ensures reply.IssueReply? ==> s.error == IssuesError(reply.messages)
    ensures reply.Threw? ==> s.error == Some(Unexpected)
    ensures !s.needsVerification
  {
    match reply
    case NullReply => Submitted(None, false, ToView(SignIn))
    case MessageReply(m) => Submitted(Some(m), false, Stay)
    case IssueReply(ms) => Submitted(IssuesError(ms), false, Stay)
    case Threw(_) => Submitted(Some(Unexpected), false, Stay)
  }

  /** Forgot-password `onSubmit`: only the exact confirmation message moves on; other messages show nothing. */
  function ForgotSubmitted(reply: Reply): (s: Submitted)
    ensures s.move == ToView(ResetSuccess) <==> reply == MessageReply(AuthActions.ForgotPasswordMessage)
    ensures s.move != ToView(ResetSuccess) ==> s.move == Stay
    ensures reply.MessageReply? || reply.NullReply? ==> s.error.None?
    ensures reply.IssueReply? ==> s.error == IssuesError(reply.messages)
    ensures reply.Threw? ==> s.error == Some(ThrownText(reply.error))
    ensures !s.needsVerification
  {
    match reply
    case IssueReply(ms) => Submitted(IssuesError(ms), false, Stay)
    case MessageReply(m) =>
      if m == AuthActions.ForgotPasswordMessage then Submitted(None, false, ToView(ResetSuccess))
      else Submitted(None, false, Stay)
    case NullReply => Submitted(None, false, Stay)
    case Threw(e) => Submitted(Some(ThrownText(e)), false, Stay)
  }

  /** Magic-link `onSubmit`: any reply carrying a message, even an error, counts as sent. */
  function MagicLinkSubmitted(reply: Reply): (s: Submitted)
    ensures s.move == ToView(MagicLinkSuccess) <==> reply.MessageReply?
    ensures s.move != ToView(MagicLinkSuccess) ==> s.move == Stay
    ensures reply.IssueReply? ==> s.error == IssuesError(reply.messages)
    ensures reply.Threw? ==> s.error == Some(ThrownText(reply.error))
    ensures reply.MessageReply? || reply.NullReply? ==> s.error.None?
    ensures !s.needsVerification
  {
    match reply
    case IssueReply(ms) => Submitted(IssuesError(ms), false, Stay)
    case MessageReply(_) => Submitted(None, false, ToView(MagicLinkSuccess))
    case NullReply => Submitted(None, false, Stay)
    case Threw(e) => Submitted(Some(ThrownText(e)), false, Stay)
  }

  /** OTP `onSubmit`: success opens the reset page. */
  function VerifyOtpSubmitted(reply: Reply): (s: Submitted)
    ensures s.move == Navigate("/auth/reset-password") <==> reply.NullReply?
    ensures s.move != Navigate("/auth/reset-password") ==> s.move == Stay
    ensures reply.MessageReply? ==> s.error == Some(reply.message)
    ensures reply.IssueReply? ==> s.error == IssuesError(reply.messages)
    ensures reply.Threw? ==> s.error == Some(ThrownText(reply.error))
    ensures !s.needsVerification
  {
    match reply
    case NullReply => Submitted(None, false, Navigate("/auth/reset-password"))
    case MessageReply(m) => Submitted(Some(m), false, Stay)
    case IssueReply(ms) => Submitted(IssuesError(ms), false, Stay)
    case Threw(e) => Submitted(Some(ThrownText(e)), false, Stay)
  }

  // ---------------------------------------------------------------------------
  // Forms against their actions
  // ---------------------------------------------------------------------------

  /** A successful `login` takes the browser to the requested page, or the dashboard. */
  lemma LoginSuccessNavigates(isEmail: string -> bool, form: AuthActions.FormData, confirmed: bool, redirect: Option<string>)
    requires AuthActions.LoginSchema(isEmail, form).Valid?
    ensures var r := AuthActions.Login(isEmail, form, AuthActions.SignedIn(confirmed)).response;
      SignInSubmitted(ReplyOf(r), redirect).move.Navigate?
  {
  }

  /** A provider error on the reset request is swallowed by the form: no error, no move. */
  lemma ForgotProviderErrorIsSilent(isEmail: string -> bool, baseUrl: string, form: AuthActions.FormData,
                                    e: AuthActions.AuthError)
    requires AuthActions.ForgotSchema(isEmail, form).Valid?
    requires e.message != AuthActions.ForgotPasswordMessage
    ensures var r := AuthActions.ForgotPassword(isEmail, baseUrl, form, Some(e)).response;
      ForgotSubmitted(ReplyOf(r)) == Submitted(None, false, Stay)
  {
  }

  /** The reset request's success message is exactly the one the form waits for. */
  lemma ForgotSuccessShowsResetSuccess(isEmail: string -> bool, baseUrl: string, form: AuthActions.FormData)
    requires AuthActions.ForgotSchema(isEmail, form).Valid?
    ensures var r := AuthActions.ForgotPassword(isEmail, baseUrl, form, None).response;
      ForgotSubmitted(ReplyOf(r)).move == ToView(ResetSuccess)
  {
  }

  /** A magic-link request the provider refuses still shows the "sent" view. */
  lemma MagicLinkErrorLooksSent(message: string)
    ensures MagicLinkSubmitted(MessageReply(message)).move == ToView(MagicLinkSuccess)
    ensures MagicLinkSubmitted(MessageReply(message)).error.None?
  {
  }
}
