/**
 * The credential schemas of the website (`website/src/utils/zod/schemas.ts`):
 * which form inputs `safeParse` accepts, and which issues it reports
 * otherwise.
 *
 * Zod semantics modelled: a form field read with `formData.get` is either a
 * string or missing; a missing field yields one `invalid_type` issue and no
 * further checks on that field. String checks (`min`, `length`, `regex`,
 * the email format) are continuable, so every failing check of a field
 * reports its own issue, fields in declaration order. The email format is an
 * opaque predicate `isEmail`.
 */
module Schemas {
  import opened Wrappers
  import opened Text

  /** The class `[!@#$%^&*=]` of the special-character rule. */
  predicate IsSpecial(c: char) {
    c == '!' || c == '@' || c == '#' || c == '$' || c == '%' || c == '^' || c == '&' || c == '*' || c == '='
  }

  datatype Field = Email | Password | Name | Terms | ConfirmPassword | Token

  datatype IssueCode =
    | InvalidType
    | InvalidEmail
    | TooShort
    | NoLowercase
    | NoUppercase
    | NoSpecial
    | NameTooShort
    | TermsNotAccepted
    | OtpLength
    | OtpNotNumeric
    | PasswordsDiffer

  datatype Issue = Issue(path: Field, code: IssueCode)

  /**
   * The message each schema attaches to an issue. A message given to
   * `z.email` covers every issue of that field, the missing value included;
   * the other fields' missing values get zod's default text for a `null`
   * where a string was expected.
   */
  function Message(issue: Issue): string {
    match issue.code
    case InvalidType =>
      if issue.path == Email then "Invalid email address" else "Invalid input: expected string, received null"
    case InvalidEmail => "Invalid email address"
    case TooShort => "Password must be at least 8 characters"
    case NoLowercase => "Password must contain at least one lowercase letter"
    case NoUppercase => "Password must contain at least one uppercase letter"
    case NoSpecial => "Password must contain at least one special character (!@#$%^&*)"
    case NameTooShort => "Name must be at least 5 characters"
    case TermsNotAccepted => "You must agree to the terms"
    case OtpLength => "OTP code must be 6 digits"
    case OtpNotNumeric => "OTP code must contain only numbers"
    case PasswordsDiffer => "Passwords do not match"
  }

  /** `safeParse`: the parsed data, or the non-empty list of issues. */
  datatype Parsed<T> = Valid(data: T) | Invalid(issues: seq<Issue>)

  datatype SignInData = SignInData(email: string, password: string)
  datatype SignUpData = SignUpData(name: string, email: string, password: string, terms: bool)
  datatype EmailData = EmailData(email: string)
  datatype ResetData = ResetData(password: string, confirmPassword: string)
  datatype OtpData = OtpData(email: string, token: string)

  // ---------------------------------------------------------------------------
  // Field rules
  // ---------------------------------------------------------------------------

  /** The password rule shared by sign-in, sign-up and reset; the length is counted in UTF-16 code units. */
  predicate PasswordOk(p: string) {
    Utf16Length(p) >= 8 && Any(p, IsLower) && Any(p, IsUpper) && Any(p, IsSpecial)
  }

  predicate NameOk(n: string) { Utf16Length(n) >= 5 }

  predicate OtpOk(t: string) { Utf16Length(t) == 6 && All(t, IsDigit) }

  function Tag(path: Field, codes: seq<IssueCode>): (issues: seq<Issue>)
    ensures |issues| == |codes|
    ensures forall i | 0 <= i < |codes| :: issues[i] == Issue(path, codes[i])
  {
    seq(|codes|, i requires 0 <= i < |codes| => Issue(path, codes[i]))
  }

  /** `.min(8)` and the three `.regex` checks, each reporting its own issue in order. */
  function PasswordCodes(p: string): (codes: seq<IssueCode>)
    ensures |codes| == 0 <==> PasswordOk(p)
    ensures (TooShort in codes <==> Utf16Length(p) < 8) && (NoLowercase in codes <==> !Any(p, IsLower))
    ensures (NoUppercase in codes <==> !Any(p, IsUpper)) && (NoSpecial in codes <==> !Any(p, IsSpecial))
  {
    (if Utf16Length(p) >= 8 then [] else [TooShort])
    + (if Any(p, IsLower) then [] else [NoLowercase])
    + (if Any(p, IsUpper) then [] else [NoUppercase])
    + (if Any(p, IsSpecial) then [] else [NoSpecial])
  }

  /** `.length(6)` then `.regex(/^\d+$/)`. */
  function OtpCodes(t: string): (codes: seq<IssueCode>)
    ensures |codes| == 0 <==> OtpOk(t)
  {
    (if Utf16Length(t) == 6 then [] else [OtpLength])
    + (if |t| > 0 && All(t, IsDigit) then [] else [OtpNotNumeric])
  }

  /** Digits are single code units, so a valid token is exactly six characters, all digits. */
  lemma OtpIsSixDigits(t: string)
    ensures OtpOk(t) <==> |t| == 6 && All(t, IsDigit)
  {
    if All(t, IsDigit) {
      Utf16LengthIsLength(t);
    }
  }

  /** A string field: a missing value is an `invalid_type`, a present one runs its checks. */
  function StringField(path: Field, v: Option<string>, checks: string -> seq<IssueCode>): seq<Issue> {
    match v
    case None => [Issue(path, InvalidType)]
    case Some(s) => Tag(path, checks(s))
  }

  function EmailField(isEmail: string -> bool, v: Option<string>): (issues: seq<Issue>)
    ensures |issues| == 0 <==> (v.Some? && isEmail(v.value))
  {
    StringField(Email, v, s => if isEmail(s) then [] else [InvalidEmail])
  }

  function PasswordField(path: Field, v: Option<string>): (issues: seq<Issue>)
    ensures |issues| == 0 <==> (v.Some? && PasswordOk(v.value))
    ensures forall i | 0 <= i < |issues| :: issues[i].path == path
  {
    StringField(path, v, PasswordCodes)
  }

  // ---------------------------------------------------------------------------
  // Schemas
  // ---------------------------------------------------------------------------

  /** `signInSchema`: email, then password. */
  function SignIn(isEmail: string -> bool, email: Option<string>, password: Option<string>): (r: Parsed<SignInData>)
    ensures r.Valid? <==> email.Some? && isEmail(email.value) && password.Some? && PasswordOk(password.value)
    ensures r.Valid? ==> r.data == SignInData(email.value, password.value)
    ensures r.Invalid? ==> |r.issues| > 0
  {
    var issues := EmailField(isEmail, email) + PasswordField(Password, password);
    if |issues| == 0 then Valid(SignInData(email.value, password.value)) else Invalid(issues)
  }

  /** `signUpSchema`: name (at least 5 characters), email, password, and `terms === true`. */
  function SignUp(isEmail: string -> bool, name: Option<string>, email: Option<string>, password: Option<string>, terms: bool)
    : (r: Parsed<SignUpData>)
    ensures r.Valid? <==>
      && name.Some? && NameOk(name.value)
      && email.Some? && isEmail(email.value)
      && password.Some? && PasswordOk(password.value)
      && terms
    ensures r.Valid? ==> r.data == SignUpData(name.value, email.value, password.value, true)
    ensures r.Invalid? ==> |r.issues| > 0
    ensures !terms ==> r.Invalid? && Issue(Terms, TermsNotAccepted) in r.issues
  {
    var issues :=
      StringField(Name, name, n => if NameOk(n) then [] else [NameTooShort])
      + EmailField(isEmail, email)
      + PasswordField(Password, password)
      + (if terms then [] else [Issue(Terms, TermsNotAccepted)]);
    if |issues| == 0 then Valid(SignUpData(name.value, email.value, password.value, terms))
    else Invalid(issues)
  }

  /** `forgotPasswordSchema`: an email and nothing else. */
  function ForgotPassword(isEmail: string -> bool, email: Option<string>): (r: Parsed<EmailData>)
    ensures r.Valid? <==> email.Some? && isEmail(email.value)
    ensures r.Valid? ==> r.data.email == email.value
    ensures r.Invalid? ==> |r.issues| > 0
  {
    var issues := EmailField(isEmail, email);
    if |issues| == 0 then Valid(EmailData(email.value)) else Invalid(issues)
  }

  /** `magicLinkSchema`: an email and nothing else. */
  function MagicLink(isEmail: string -> bool, email: Option<string>): (r: Parsed<EmailData>)
    ensures r.Valid? <==> email.Some? && isEmail(email.value)
    ensures r.Valid? ==> r.data.email == email.value
    ensures r.Invalid? ==> |r.issues| > 0
  {
    var issues := EmailField(isEmail, email);
    if |issues| == 0 then Valid(EmailData(email.value)) else Invalid(issues)
  }

  /**
   * `resetPasswordSchema`: the password rule on `password`, any string as
   * `confirmPassword`, then the object refinement that the two are equal,
   * reported on the `confirmPassword` path. The refinement runs only when
   * both fields are strings (a missing field aborts it).
   */
  function ResetPassword(password: Option<string>, confirm: Option<string>): (r: Parsed<ResetData>)
    ensures r.Valid? <==>
      password.Some? && confirm.Some? && PasswordOk(password.value) && password.value == confirm.value
    ensures r.Valid? ==> r.data == ResetData(password.value, password.value)
    ensures r.Invalid? ==> |r.issues| > 0
    ensures password.Some? && confirm.Some? && password.value != confirm.value ==>
      r.Invalid? && r.issues[|r.issues| - 1] == Issue(ConfirmPassword, PasswordsDiffer)
  {
    var fieldIssues := PasswordField(Password, password) + StringField(ConfirmPassword, confirm, s => []);
    var refineIssues :=
      if password.Some? && confirm.Some? && password.value != confirm.value
      then [Issue(ConfirmPassword, PasswordsDiffer)] else [];
    var issues := fieldIssues + refineIssues;
    if |issues| == 0 then Valid(ResetData(password.value, confirm.value)) else Invalid(issues)
  }

  /** `verifyOtpSchema`: an email and a six-digit token. */
  function VerifyOtp(isEmail: string -> bool, email: Option<string>, token: Option<string>): (r: Parsed<OtpData>)
    ensures r.Valid? <==> email.Some? && isEmail(email.value) && token.Some? && OtpOk(token.value)
    ensures r.Valid? ==> r.data == OtpData(email.value, token.value)
    ensures r.Invalid? ==> |r.issues| > 0
  {
    var issues := EmailField(isEmail, email) + StringField(Token, token, OtpCodes);
    if |issues| == 0 then Valid(OtpData(email.value, token.value)) else Invalid(issues)
  }

  // ---------------------------------------------------------------------------
  // Facts across the schemas
  // ---------------------------------------------------------------------------

  /** Sign-up accepts exactly the sign-in inputs that also carry a long enough name and `terms`. */
  lemma SignUpExtendsSignIn(isEmail: string -> bool, name: Option<string>, email: Option<string>, password: Option<string>, terms: bool)
    ensures SignUp(isEmail, name, email, password, terms).Valid?
        <==> SignIn(isEmail, email, password).Valid? && name.Some? && NameOk(name.value) && terms
  {
  }

  /** The forgot-password and magic-link schemas are the same email-only schema. */
  lemma ForgotPasswordIsMagicLink(isEmail: string -> bool, email: Option<string>)
    ensures ForgotPassword(isEmail, email) == MagicLink(isEmail, email)
  {
  }

  /** `=` passes the special-character rule although the message lists only `!@#$%^&*`. */
  lemma EqualsSignCountsAsSpecial()
    ensures PasswordOk("Password=")
    ensures !PasswordOk("Password")
  {
    var p := "Password=";
    assert IsLower(p[1]) && IsUpper(p[0]) && IsSpecial(p[8]);
    var q := "Password";
    assert !Any(q, IsSpecial) by {
      forall i | 0 <= i < |q| ensures !IsSpecial(q[i]) { }
    }
  }
}
