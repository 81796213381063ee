# troooble core, modelled in Dafny

troooble is a troubleshooting-training platform with three parts. This
project models the core decisions of each part as pure Dafny functions over
immutable values, and proves properties of them.

- **Website (Next.js / TypeScript).**
  - Authentication: the form schemas, the password-strength meter, the
    server actions (current and legacy), the session middleware and the
    sign-in form's view machine.
  - Billing against the Polar provider: the billing database, subscription
    tiers and features, the admission rule for a new subscription, the
    Polar customer link, the checkout endpoint, the signed webhook and the
    premium guards.
  - UI logic: the pricing page, the search components, the profile initials
    and the three-step auto-layout card.
- **Challenge orchestrator (Go).** The challenge and deployment domain, the
  in-memory repository and the dummy deployer and validator, the deploy and
  validation services, the HTTP handlers and the bearer-token middleware.
- **Challenge validator (Python).** Command-output checking (`check_output`,
  `validate_output`) and the per-step report of `run_validations`.

Everything outside the program is a parameter, so each function decides
what the source decides, apart from the gaps listed under "Left out":

- the auth provider's and Polar's replies;
- the database (`None` when a query throws);
- the clock;
- Go's map iteration order;
- the Python regular-expression engine (`matchesAt`);
- the AWS command runner.

Effects are recorded as call traces, so "nothing is called before the input
is validated" is a postcondition. Each module sits in its own file. Two
shared modules hold what several sources lean on: `Text` (character classes,
UTF-16 length, trimming, splitting) and `Sequences` (`filter`, reversal, and
the predicates saying which elements a list keeps, how often and in what
order).

## Where the code and its description differ (the model follows the code)

- Password recovery is described as a state machine driven by a
  `needs_password_reset` cookie. The middleware has no such cookie. It only
  sends a signed-in user whose `recovery_sent_at` is under an hour old from a
  dashboard route to `/auth/reset-password`; `SessionMiddleware.Decide`
  models exactly that.
- The strength meter's comment gives a score range of 0-4. The code counts
  six checks, so the score ranges over 0-6.
- The tier of a subscription is described as coming from the product-to-tier
  map. `getUserSubscription` instead sets `pro` for any subscription that
  names a product, and `PRODUCT_TIER_MAP` is empty.

## Model

| member | source | states |
|---|---|---|
| Schemas.Tag | website/src/utils/zod/schemas.ts:7-14 | one issue per failed check, in check order, all on the field's path |
| Schemas.PasswordCodes | website/src/utils/zod/schemas.ts:9-13 | a password has no issue iff it has 8+ UTF-16 code units, a lower-case letter, an upper-case letter and a special character; each issue code appears iff its check fails |
| Schemas.OtpCodes | website/src/utils/zod/schemas.ts:43-46 | an OTP token has no issue iff it is exactly six digits |
| Schemas.OtpIsSixDigits | website/src/utils/zod/schemas.ts:45 | a token passes the length and digit checks iff it is exactly six characters, all ASCII digits |
| Schemas.EmailField | website/src/utils/zod/schemas.ts:8 | the email field is clean iff present and accepted by the email check |
| Schemas.PasswordField | website/src/utils/zod/schemas.ts:9-13 | the password field is clean iff present and strong enough; every issue sits on that field |
| Schemas.SignIn | website/src/utils/zod/schemas.ts:7-14 | valid iff email and password both pass, and then yields exactly those values; an invalid form carries at least one issue |
| Schemas.SignUp | website/src/utils/zod/schemas.ts:16-25 | valid iff name (5+ UTF-16 code units), email, password pass and terms is true; refusing the terms always yields the terms issue |
| Schemas.ForgotPassword | website/src/utils/zod/schemas.ts:27-29 | valid iff the email passes, carrying that email |
| Schemas.MagicLink | website/src/utils/zod/schemas.ts:48-50 | valid iff the email passes, carrying that email |
| Schemas.ResetPassword | website/src/utils/zod/schemas.ts:31-41 | valid iff both passwords pass and are equal; two different passwords always yield the mismatch issue on confirmPassword |
| Schemas.VerifyOtp | website/src/utils/zod/schemas.ts:43-46 | valid iff the email passes and the token is six digits |
| Schemas.SignUpExtendsSignIn | website/src/utils/zod/schemas.ts:7-25 | sign-up accepts exactly the sign-in inputs that also carry a 5+ character name and accepted terms |
| Schemas.ForgotPasswordIsMagicLink | website/src/utils/zod/schemas.ts:27-29 | the forgot-password and magic-link schemas accept and reject exactly the same input |
| Schemas.EqualsSignCountsAsSpecial | website/src/utils/zod/schemas.ts:13 | '=' satisfies the special-character rule, letters alone do not |
| PasswordStrength.Take | website/src/utils/password-strength.ts:82 | the first n elements in order, exactly n of them when there are more, all of them otherwise |
| PasswordStrength.Band | website/src/utils/password-strength.ts:56-77 | weak for scores up to 2, fair for 3-4, good for 5, strong from 6, with percentage 25/50/75/100 |
| PasswordStrength.CalculatePasswordStrength | website/src/utils/password-strength.ts:13-86 | score is the number of the six checks passed, feedback is the first two hints of failed checks, label and percentage follow the band |
| PasswordStrength.UnrollScore | website/src/utils/password-strength.ts:17-54 | the score is the sum of the six individual check outcomes |
| PasswordStrength.UnrollHints | website/src/utils/password-strength.ts:17-54 | the hints are those of the failed checks, in source order, the 12-character check giving none |
| PasswordStrength.StrongIff | website/src/utils/password-strength.ts:56-77 | a password is rated strong iff it passes all six checks |
| PasswordStrength.NoFeedbackIff | website/src/utils/password-strength.ts:17-82 | there is no feedback iff every hinted check passes, and then the rating is good or strong |
| PasswordStrength.AcceptedPasswordIsNotWeak | website/src/utils/password-strength.ts:17-54 | any password the sign-in schema accepts scores 4 or more, is never weak, and at most hints "Add numbers" |
| PasswordStrength.PercentageMonotone | website/src/utils/password-strength.ts:56-77 | a higher score never shows a lower percentage |
| Text.Utf16LengthIsLength | website/src/utils/password-strength.ts:18-24 | the UTF-16 length equals the character count iff no character lies beyond the Basic Multilingual Plane |
| AuthActions.Login | website/src/app/actions/auth/action.ts:11-36 | an invalid form returns its issues without calling the provider; a valid one signs in with exactly its email and password; provider errors are returned; success returns nothing |
| AuthActions.Signup | website/src/app/actions/auth/action.ts:38-73 | the provider is called only for a valid form with terms accepted, with its email, password and name; errors returned; success returns nothing |
| AuthActions.ForgotPassword | website/src/app/actions/auth/action.ts:75-101 | a valid form sends one reset email redirecting to the reset page; success returns the fixed message |
| AuthActions.Logout | website/src/app/actions/auth/action.ts:103-114 | always signs out; redirects home iff the provider reports no error |
| AuthActions.CheckAuth | website/src/app/actions/auth/action.ts:117-129 | an anonymous visitor goes to /auth; a signed-in one goes to a non-empty redirect or stays |
| AuthActions.SignupNeedsTermsTrue | website/src/app/actions/auth/action.ts:46 | a form without terms set to "true" never reaches the provider and reports the terms issue |
| LegacyAuthActions.Login | src/app/actions/auth/action.ts:11-40 | same validation as the current action; success redirects to /dashboard, or to /confirm-email when the email is unconfirmed |
| LegacyAuthActions.Signup | src/app/actions/auth/action.ts:43-69 | same validation; success redirects to /auth/confirm-email |
| LegacyAuthActions.LoginVersionsAgree | src/app/actions/auth/action.ts:11-40 | both versions make the same provider calls; they differ only in answering success with a redirect |
| LegacyAuthActions.SignupVersionsAgree | src/app/actions/auth/action.ts:43-69 | both versions validate alike and answer alike except on success |
| LegacyAuthActions.ProviderErrorsVerbatim | src/app/actions/auth/action.ts:27-31 | every legacy action hands the provider's error back unchanged |
| SessionMiddleware.Decide | website/src/utils/supabase/middleware.ts:44-99 | an anonymous dashboard visit goes to /auth with the path set as redirect; any other anonymous visit outside auth and public routes goes to /auth; a signed-in dashboard visit with a session and a recovery under an hour old goes to the reset page with from=recovery; the request passes iff none of these holds; redirects keep the request's query parameters |
| SessionMiddleware.SetParam | website/src/utils/supabase/middleware.ts:57 | URLSearchParams.set: the parameter then has exactly the new value, once, and every other parameter is unchanged and in order; the new pair takes the place of the first pair of that name, the later ones are dropped; a new name is appended |
| SessionMiddleware.SignInRedirectRemembersPath | website/src/utils/supabase/middleware.ts:53-59 | the sign-in redirect carries the dashboard path as its only redirect value and keeps every other query parameter |
| SessionMiddleware.RedirectTargets | website/src/utils/supabase/middleware.ts:53-96 | a redirect goes to /auth or to /auth/reset-password with from=recovery, never elsewhere |
| SessionMiddleware.RouteClassesDisjoint | website/src/utils/supabase/middleware.ts:44-47 | auth, dashboard and public routes never overlap |
| SessionMiddleware.DashboardIsPrefixBased | website/src/utils/supabase/middleware.ts:45 | every path under /dashboard, including /dashboardX, is a dashboard route |
| SessionMiddleware.AnonymousOpenRoutesPass | website/src/utils/supabase/middleware.ts:62-66 | an anonymous visitor is never redirected away from auth or public routes |
| SessionMiddleware.SignedInOffDashboardPasses | website/src/utils/supabase/middleware.ts:76-99 | a signed-in user off the dashboard is never redirected to the reset page |
| SessionMiddleware.IsRecoveryIrrelevant | website/src/utils/supabase/middleware.ts:76-99 | the decision depends on the recovery timestamp only |
| SessionMiddleware.ResetPageIsAuthRoute | website/src/utils/supabase/middleware.ts:90-96 | the reset page is an auth route, so the recovery redirect cannot loop |
| AuthForm.ParseView | website/src/components/auth/auth-form.tsx:27-62 | each known query value selects its view; a missing one selects sign-in |
| AuthForm.ParseViewName | website/src/components/auth/auth-form.tsx:27-62 | parsing a view's name gives the view back; an unknown name gives sign-in |
| AuthForm.ViewsStronglyConnected | website/src/components/auth/auth-form.tsx:77-121 | every view is reachable from sign-in, and sign-in from every view, in at most two links |
| AuthForm.Bullets | website/src/components/auth/auth-form.tsx:166-167 | the bullet list holds only non-blank items, at most one per part; a first part that is not blank once trimmed heads the list, trimmed |
| AuthForm.BulletsIsFilter | website/src/components/auth/auth-form.tsx:166-167 | the bullets are the trimmed parts with the blank ones filtered out |
| AuthForm.BulletsSelectInOrder | website/src/components/auth/auth-form.tsx:166-167 | the bullets are exactly the trimmed parts that are not blank, each as often as it occurs, in their order |
| AuthForm.RenderError | website/src/components/auth/auth-form.tsx:157-175 | no message shows nothing; a message with no dash shows as plain text; a message with a dash shows as a bullet list |
| AuthForm.TrimPadded | website/src/components/auth/auth-form.tsx:166-167 | trimming a padded message gives the message back |
| AuthForm.BulletsOfJoin | website/src/components/auth/auth-form.tsx:164-168 | splitting the joined issue text on dashes and trimming gives back the issue messages |
| AuthForm.IssueListRoundTrip | website/src/components/auth/auth-form.tsx:157-175 | several joined issues render as exactly those bullets; one issue renders as plain text |
| AuthForm.ReplyOf | website/src/components/auth/auth-form.tsx:264-306 | an action's answer becomes nothing, its message, its error text, or one message per issue |
| AuthForm.SignInSubmitted | website/src/components/auth/auth-form.tsx:264-306 | success navigates to the redirect or the dashboard; "email not confirmed" asks for verification; other errors stay on the form |
| AuthForm.SignUpSubmitted | website/src/components/auth/auth-form.tsx:515-553 | only success moves to sign-in; every failure stays with its message |
| AuthForm.ForgotSubmitted | website/src/components/auth/auth-form.tsx:701-724 | moves to the reset-success view iff the fixed success message came back |
| AuthForm.MagicLinkSubmitted | website/src/components/auth/auth-form.tsx:885-905 | any message reply, error or not, moves to the link-sent view |
| AuthForm.VerifyOtpSubmitted | website/src/components/auth/auth-form.tsx:1048-1076 | success goes to the reset page; failures stay with their message |
| AuthForm.LoginSuccessNavigates | website/src/components/auth/auth-form.tsx:274-277 | a valid login the provider accepts navigates away, confirmed email or not |
| AuthForm.ForgotProviderErrorIsSilent | website/src/components/auth/auth-form.tsx:701-724 | a provider error on forgot-password shows no error and does not move the form, so the success view is never reached |
| AuthForm.ForgotSuccessShowsResetSuccess | website/src/components/auth/auth-form.tsx:701-724 | a valid forgot-password request that succeeds reaches the reset-success view |
| AuthForm.MagicLinkErrorLooksSent | website/src/components/auth/auth-form.tsx:885-905 | a magic-link error is shown as if the link were sent |
| ProfileDropdown.FirstChars | website/src/components/kokonutui/profile-dropdown.tsx:42-43 | one first character per non-empty word, in order |
| ProfileDropdown.NonEmptyIsFilter | website/src/components/kokonutui/profile-dropdown.tsx:40-43 | the non-empty words, each as often as it occurs, in their order (a filter of the words) |
| ProfileDropdown.Initials | website/src/components/kokonutui/profile-dropdown.tsx:39-46 | at most two characters, the upper-cased first letters of the first non-empty words |
| ProfileDropdown.NonEmptyOfNonEmpty | website/src/components/kokonutui/profile-dropdown.tsx:40-43 | words already non-empty are kept as they are |
| ProfileDropdown.InitialsOfWords | website/src/components/kokonutui/profile-dropdown.tsx:39-46 | for a name written as words separated by single spaces, the initials are the capitals of its first one or two words |
| ProfileDropdown.LeadingSpaceIgnored | website/src/components/kokonutui/profile-dropdown.tsx:39-46 | a leading space does not change the initials |
| ProfileDropdown.ShowBadge | website/src/components/kokonutui/profile-dropdown.tsx:92 | the avatar image is shown iff one is set and is not the default; otherwise the initials |
| AutoLayoutCard.NextStep | website/src/components/auto-layout-card.tsx:87 | a click moves 1→2→3→1, never staying put |
| AutoLayoutCard.StepAfter | website/src/components/auto-layout-card.tsx:85-87 | after n clicks from the start the card is at step n mod 3 + 1 |
| AutoLayoutCard.ThreeClicksReturn | website/src/components/auto-layout-card.tsx:87 | three clicks return to the same step, two never do |
| AutoLayoutCard.StyleOf | website/src/components/auto-layout-card.tsx:24-61 | only step 3 has a fixed container height and a row layout; the info row is horizontal from step 2 |
| AutoLayoutCard.StylesGrow | website/src/components/auto-layout-card.tsx:24-61 | a later step is strictly wider and has a taller image |
| AutoLayoutCard.ShowsCardRow | website/src/components/auto-layout-card.tsx:160 | the extra row shows exactly on the step whose next click returns to the start |
| BillingStore.DisplayName | website/src/app/actions/subscription/action.ts:143 | the first non-empty of fullName and full_name, or none |
| BillingStore.NewUserRow | website/src/app/actions/subscription/action.ts:139-145 | the new row belongs to the auth user, has the email or "", and no customer id |
| BillingStore.Current | website/src/app/actions/subscription/action.ts:38-63 | the newest active or trialing subscription of the user, none iff there is no such row |
| BillingStore.NewestFirstIsReversedFilter | website/src/app/actions/subscription/action.ts:47-49 | the newest-first listing is the user's rows reversed: the kept rows in descending storage order, each once per occurrence |
| BillingStore.FindSubscription | website/src/app/api/webhooks/polar/route.ts:110 | finds a row with the external id, none iff no row has it |
| BillingStore.CreateUser | website/src/lib/polar-customer.ts:32-38 | fails iff the user already has a row; otherwise adds exactly that row |
| BillingStore.SetCustomerId | website/src/lib/polar-customer.ts:59-62 | fails iff the user has no row; otherwise changes only that user's customer id |
| BillingStore.CreateSubscription | website/src/app/api/webhooks/polar/route.ts:83-97 | fails iff the owner is missing or the external id is taken; otherwise appends the row |
| BillingStore.UpdateSubscription | website/src/app/api/webhooks/polar/route.ts:109-119 | fails iff no row has the id; otherwise rewrites only that row |
| BillingStore.FindOrder | website/src/app/api/webhooks/polar/route.ts:161-172 | true iff some order has the external id |
| BillingStore.CreateOrder | website/src/app/api/webhooks/polar/route.ts:161-172 | fails iff a named owner is missing or the order id is taken; otherwise appends the order |
| BillingStore.CreateUserKeepsValid | website/src/lib/polar-customer.ts:32-38 | creating a user keeps the database constraints |
| BillingStore.SetCustomerIdKeepsValid | website/src/lib/polar-customer.ts:59-62 | storing a customer id keeps the database constraints |
| BillingStore.CreateSubscriptionKeepsValid | website/src/app/api/webhooks/polar/route.ts:83-97 | creating a subscription keeps the database constraints |
| BillingStore.UpdateSubscriptionKeepsValid | website/src/app/api/webhooks/polar/route.ts:109-138 | an update that keeps owner and external id keeps the constraints |
| BillingStore.CreateOrderKeepsValid | website/src/app/api/webhooks/polar/route.ts:161-172 | creating an order keeps the database constraints |
| SubscriptionUtils.EveryProductIsFree | website/src/lib/subscription-utils.ts:11-20 | with the shipped empty map every product is free |
| SubscriptionUtils.FeaturesNested | website/src/lib/subscription-utils.ts:26-57 | each tier's feature list extends the one below it |
| SubscriptionUtils.HasFeatureMonotone | website/src/lib/subscription-utils.ts:59-61 | a feature of a tier is a feature of every higher tier |
| SubscriptionUtils.CompareTiers | website/src/lib/subscription-utils.ts:73-81 | zero iff equal; negative iff the first tier is lower |
| SubscriptionUtils.CompareTiersAntisymmetric | website/src/lib/subscription-utils.ts:73-81 | swapping the arguments negates the comparison |
| SubscriptionUtils.CompareTiersTransitive | website/src/lib/subscription-utils.ts:73-81 | "lower than" is transitive |
| SubscriptionUtils.FormatSubscriptionStatus | website/src/lib/subscription-utils.ts:86-98 | a label for each of the seven known statuses; any other status unchanged |
| SubscriptionUtils.IsSubscriptionActive | website/src/lib/subscription-utils.ts:103-105 | active exactly for the statuses the database queries count as live |
| SubscriptionActions.GetUserSubscription | website/src/app/actions/subscription/action.ts:24-93 | free and empty without a user, a row or a live subscription; otherwise the newest live one, pro when it names a product, never team |
| SubscriptionActions.HasFeatureAccess | website/src/app/actions/subscription/action.ts:98-109 | the feature is in the current tier's row; without a subscription only the two basic features |
| SubscriptionActions.CanAccessPremiumContent | website/src/app/actions/subscription/action.ts:114-117 | true iff the user has a live subscription |
| SubscriptionActions.MatricesDiffer | website/src/app/actions/subscription/action.ts:102-106 | the action's feature matrix disagrees with the shared one on the free and team rows |
| SubscriptionActions.SyncUserWithDatabase | website/src/app/actions/subscription/action.ts:123-153 | without a user or with a failing database it reports failure; otherwise the user has a row afterwards and existing rows are untouched |
| SubscriptionActions.SyncIdempotent | website/src/app/actions/subscription/action.ts:133-146 | syncing twice is syncing once |
| SubscriptionActions.SyncKeepsFreeStatus | website/src/app/actions/subscription/action.ts:123-153 | syncing never gives a user without subscriptions a paid status |
| SubscriptionActions.GetUserSubscriptions | website/src/app/actions/subscription/action.ts:158-183 | the user's subscriptions, each as often as stored, in reverse storage order, newest first; empty without a user, a row or on error |
| Catalogue.FindPrice | website/src/lib/subscription-validation.ts:29-39 | finds a listed price with the id, none iff no product lists it |
| Catalogue.FindIn | website/src/lib/subscription-validation.ts:30-37 | a price of the product with the id, none iff the product lists no such price |
| Catalogue.PriceAmount | website/src/lib/subscription-validation.ts:22-46 | the found price's amount; 0 when the listing fails or the id is unknown |
| Catalogue.FindListedPrice | website/src/lib/subscription-validation.ts:29-39 | with unique price ids, the lookup finds the very price listed |
| Catalogue.FindPriceLocated | website/src/lib/subscription-validation.ts:29-39 | a found price sits in some product of the listing |
| SubscriptionValidation.ValidateSubscription | website/src/lib/subscription-validation.ts:52-148 | anonymous and failing calls are refused; no live subscription admits; the same product and price are refused; a cheaper non-free price is refused as a downgrade; anything else admits |
| SubscriptionValidation.VerdictHasReasonIffRejected | website/src/lib/subscription-validation.ts:60-147 | a refusal always carries a reason and an admission never does |
| SubscriptionValidation.NoPriceIdNeverDowngrade | website/src/lib/subscription-validation.ts:110-116 | with a current subscription that has no price id, a checkout is never refused as a downgrade |
| SubscriptionValidation.FreeTargetNeverDowngrade | website/src/lib/subscription-validation.ts:109-128 | a checkout whose target price reads as 0 or less (free, without an amount, unlisted, or with no catalogue) is never refused as a downgrade |
| SubscriptionValidation.UnlistedTargetAdmitted | website/src/lib/subscription-validation.ts:88-147 | a target price the catalogue does not list is admitted unless it is exactly the held product and price |
| SubscriptionValidation.RejectionNeedsCurrentSubscription | website/src/lib/subscription-validation.ts:84-87 | a signed-in user is refused only when they have a row and a live subscription |
| SubscriptionValidation.HasActiveSubscription | website/src/lib/subscription-validation.ts:153-178 | true iff the user has a live subscription; false on any failure |
| SubscriptionValidation.ActiveIffCurrent | website/src/lib/subscription-validation.ts:153-173 | having an active subscription is exactly having one for the admission rule to compare against |
| PolarCustomer.EnsureUser | website/src/lib/polar-customer.ts:26-39 | the user has a row afterwards; an existing row is kept as is |
| PolarCustomer.GetOrCreatePolarCustomer | website/src/lib/polar-customer.ts:12-75 | an existing customer id is returned without calling Polar; otherwise one customer is created and its id stored and returned; failures report their error |
| PolarCustomer.UserRowExistsAfterwards | website/src/lib/polar-customer.ts:30-39 | whatever Polar answers, the user has a row afterwards |
| PolarCustomer.ResultMatchesStoredId | website/src/lib/polar-customer.ts:41-64 | a returned customer id is the one stored in the user's row |
| PolarCustomer.GetOrCreateIdempotent | website/src/lib/polar-customer.ts:41-44 | a second call returns the same id, leaves the store unchanged and calls Polar no more |
| PolarCustomer.SyncPolarCustomer | website/src/lib/polar-customer.ts:80-100 | one update call carrying the user's id, email and name when signed in; nothing otherwise |
| CheckoutRoute.Post | website/src/app/api/checkout/create/route.ts:7-83 | 401 without a user, 500 for an unreadable body, 400 without a price id or when refused; for an admitted request a customer failure or empty customer id answers 500 after the customer step's effects, and otherwise the checkout session is requested for that customer and Polar's reply decides 200 with its url and id, the session error, or 500 |
| CheckoutRoute.CheckoutCallCarriesUser | website/src/app/api/checkout/create/route.ts:55-63 | the checkout session is created for the user's customer id and tagged with the user's id |
| CheckoutRoute.RejectedRequestHasNoEffect | website/src/app/api/checkout/create/route.ts:32-42 | a refused request changes nothing and calls Polar not at all |
| CheckoutRoute.AlreadySubscribedIsRejected | website/src/app/api/checkout/create/route.ts:34-42 | asking again for the current product and price is answered 400 |
| PolarWebhook.CheckSignature | website/src/app/api/webhooks/polar/route.ts:43-47 | a length difference is the throwing case; otherwise the signature matches iff it equals the digest |
| PolarWebhook.AttachCustomer | website/src/app/api/webhooks/polar/route.ts:61-80 | the owner has a row afterwards; an existing customer id is never overwritten |
| PolarWebhook.SubscriptionCreated | website/src/app/api/webhooks/polar/route.ts:50-104 | without an owner id nothing changes; otherwise the owner is attached, and one new row is appended iff the external id is new, a duplicate keeping the attached owner |
| PolarWebhook.SubscriptionUpdated | website/src/app/api/webhooks/polar/route.ts:107-126 | rewrites the matching row's status, period, flags and metadata; an unknown id fails |
| PolarWebhook.SubscriptionCanceled | website/src/app/api/webhooks/polar/route.ts:129-145 | sets the matching row to canceled at the current time, canceling at period end |
| PolarWebhook.OrderOwner | website/src/app/api/webhooks/polar/route.ts:150-159 | the owner is the metadata's user only when that user has a row |
| PolarWebhook.OrderCreated | website/src/app/api/webhooks/polar/route.ts:148-179 | fails, changing nothing, iff the order id is already stored |
| PolarWebhook.Dispatch | website/src/app/api/webhooks/polar/route.ts:216-236 | each handled event kind goes to its handler, revoked is a cancel, and other kinds change nothing |
| PolarWebhook.Handle | website/src/app/api/webhooks/polar/route.ts:213-244 | unparseable payloads and handler failures answer 500; otherwise received |
| PolarWebhook.Post | website/src/app/api/webhooks/polar/route.ts:181-248 | 401 without or with a wrong signature, 500 without a secret, and the event is handled only after the signature checks out |
| PolarWebhook.PostChecked | website/src/app/api/webhooks/polar/route.ts:204-210 | the corrected endpoint answers any signature that does not match with 401 |
| PolarWebhook.PostCheckedDiffersOnlyOnLength | website/src/app/api/webhooks/polar/route.ts:43-47 | the corrected and written endpoints agree except on signatures of the wrong length |
| PolarWebhook.ShortSignatureAnswers500 | website/src/app/api/webhooks/polar/route.ts:46 | a signature of the wrong length answers 500, not 401 |
| PolarWebhook.GateBeforeMutation | website/src/app/api/webhooks/polar/route.ts:187-210 | an unauthenticated request never changes the database |
| PolarWebhook.UnknownEventIsNoOp | website/src/app/api/webhooks/polar/route.ts:234-235 | an unhandled event kind changes nothing |
| PolarWebhook.CreatedWithoutOwnerIsNoOp | website/src/app/api/webhooks/polar/route.ts:55-58 | a creation event without a supabase id changes nothing |
| PolarWebhook.CreatedAddsOneRow | website/src/app/api/webhooks/polar/route.ts:83-97 | a successful creation adds exactly one subscription row |
| PolarWebhook.CreatedIsNotTransactional | website/src/app/api/webhooks/polar/route.ts:65-97 | a failing subscription insert keeps the user row written before it |
| PolarWebhook.UpdatedFrame | website/src/app/api/webhooks/polar/route.ts:109-119 | an update touches only the matching row and only the listed fields |
| PolarWebhook.CanceledFrame | website/src/app/api/webhooks/polar/route.ts:131-138 | a cancel touches only the matching row's status, cancel time and flag |
| PolarWebhook.CancelAgainMovesOnlyTime | website/src/app/api/webhooks/polar/route.ts:131-138 | a repeated cancel changes only the recorded cancel time |
| PolarWebhook.OrderOwnership | website/src/app/api/webhooks/polar/route.ts:150-172 | an order is owned only by a user who has a row |
| PolarWebhook.PostKeepsValid | website/src/app/api/webhooks/polar/route.ts:181-248 | whatever arrives, the database constraints still hold afterwards |
| PremiumGuard.Premium | website/src/components/premium-guard.tsx:18-62 | children iff subscribed; otherwise a non-empty redirect, then the fallback, then the locked card |
| PremiumGuard.Feature | website/src/components/premium-guard.tsx:73-93 | children iff the tier's row has the feature; otherwise the fallback or nothing |
| PremiumGuard.GuardAgreesWithActions | website/src/components/premium-guard.tsx:76-82 | the guard admits exactly when the feature action answers yes |
| PremiumGuard.GuardRowsNested | website/src/components/premium-guard.tsx:76-80 | a feature of a tier's row is in every higher tier's row |
| PremiumGuard.PremiumNeedsLiveSubscription | website/src/components/premium-guard.tsx:19-21 | the guarded content shows iff the user has a live subscription |
| PricingSection.FormatPrice | website/src/components/magic/PricingSection.tsx:20-49 | "Contact us" without a price, "Free", "$N" with a month or year suffix for recurring prices, "Custom pricing", else "Contact us" |
| PricingSection.RecurringLabelShape | website/src/components/magic/PricingSection.tsx:35-38 | a recurring fixed price ends in "/month" or "/year" |
| PricingSection.FlagsExclusive | website/src/components/magic/PricingSection.tsx:68-69 | a plan is never both an upgrade and a downgrade |
| PricingSection.DowngradeMatchesServer | website/src/components/magic/PricingSection.tsx:69 | the page's downgrade flag agrees with the server's downgrade rule while a paid plan is current |
| PricingSection.CheckoutHrefRoundTrip | website/src/components/magic/PricingSection.tsx:169 | for ids without '&', splitting the link's query on '&' gives back the raw price id and `product=` followed by the product id |
| PricingSection.ChooseButton | website/src/components/magic/PricingSection.tsx:144-172 | the current plan and downgrades get disabled buttons; others link to checkout, labelled upgrade, get started or subscribe |
| PricingSection.CurrentPlanAmount | website/src/components/magic/PricingSection.tsx:194-203 | the server-side price lookup's amount for the subscription's price id, 0 without a subscription or price id |
| PricingSection.FirstMatchIsServerLookup | website/src/components/magic/PricingSection.tsx:194-203 | the page finds the same price amount as the server-side lookup |
| PricingSection.SortPlans | website/src/components/magic/PricingSection.tsx:206-210 | a permutation of the plans in non-decreasing order of first-price amount |
| PricingSection.Page | website/src/components/magic/PricingSection.tsx:179-267 | a failing listing shows the error page; otherwise one card per plan in sorted order, at most one featured, the current plan never featured |
| PricingSection.FeaturedIsInRange | website/src/components/magic/PricingSection.tsx:213-235 | the middle index is always a card, and no other card is ever featured |
| SearchBar.BlankQueryIsEmpty | website/src/components/ui/search-bar.tsx:106 | a blank query lower-cases and trims to the empty string, which every text contains |
| SearchBar.Order | website/src/components/ui/search-bar.tsx:392-400 | every order is a permutation of the input; unsorted keeps it as is; the others are sorted by title rank up or down, by deadline, or by participants descending |
| SearchBar.ParticipantsNonIncreasing | website/src/components/ui/search-bar.tsx:398-399 | the participants order is non-increasing in participants |
| SearchBar.SearchIssues | website/src/components/ui/search-bar.tsx:105-121 | exactly the issues whose title, description or a label contains the query, each as often as given; unsorted keeps their relative order, the title orders sort by rank up or down |
| SearchBar.SearchTitles | website/src/components/ui/search-bar.tsx:218-229 | exactly the items whose lower-cased title contains the trimmed, lower-cased query, each as often as given; unsorted keeps their relative order, the title orders sort by rank up or down |
| SearchBar.SearchChallenges | website/src/components/ui/search-bar.tsx:378-403 | exactly the challenges matching the query in title, description, category or a tag, and of the chosen difficulty when one is chosen, each as often as given; unsorted keeps their relative order; the other orders sort by title rank, deadline or participants descending |
| SearchBar.BlankSearchShowsAll | website/src/components/ui/search-bar.tsx:378-390 | a blank query with no difficulty keeps every challenge |
| SearchBar.CardLabels | website/src/components/ui/search-bar.tsx:79 | the known labels whose name the item lists, each as often as it is known, in the order of the known labels |
| Sequences.FilterSelects | website/src/components/ui/search-bar.tsx:105-121 | filtering keeps every passing element exactly as often as it occurs and drops the rest |
| Sequences.FilterIsSubsequence | website/src/components/ui/search-bar.tsx:105-121 | filtering keeps the passing elements in their original relative order |
| OrchestratorDomain.IsValidDeploymentStatus | challenge-orchestrator-service/internal/domain/deployment.go:15-22 | valid iff one of the five deployment statuses |
| OrchestratorDomain.DeploymentStatusesShape | challenge-orchestrator-service/internal/domain/deployment.go:7-13 | five distinct statuses, destroyed among them |
| OrchestratorDomain.IsValidChallengeStatus | challenge-orchestrator-service/internal/domain/challenge.go:15-22 | valid iff one of the four challenge statuses |
| OrchestratorDomain.ChallengeStatusesShape | challenge-orchestrator-service/internal/domain/challenge.go:8-13 | "in progress" is spelled with a space and "failed" is not a challenge status |
| OrchestratorDomain.IsKnownChallengeStatus | challenge-orchestrator-service/internal/app/deploy_service.go:37 | the corrected status set: the four statuses plus the "failed" the service writes |
| InMemoryAdapters.SaveChallenge | challenge-orchestrator-service/cmd/api/main.go:30-33 | stores the challenge under its id and changes nothing else |
| InMemoryAdapters.GetChallenge | challenge-orchestrator-service/cmd/api/main.go:34-40 | the stored challenge, or "challenge not found" iff absent |
| InMemoryAdapters.SaveThenGetChallenge | challenge-orchestrator-service/cmd/api/main.go:30-40 | reading a saved challenge gives it back; other ids are unaffected |
| InMemoryAdapters.SaveDeployment | challenge-orchestrator-service/cmd/api/main.go:41-44 | stores the deployment under its id and changes nothing else |
| InMemoryAdapters.UpdateDeployment | challenge-orchestrator-service/cmd/api/main.go:52-55 | overwrites (or adds) the deployment under its id, nothing else |
| InMemoryAdapters.GetDeployment | challenge-orchestrator-service/cmd/api/main.go:45-51 | the stored deployment, or "deployment not found" iff absent |
| InMemoryAdapters.LastDeploymentWriteWins | challenge-orchestrator-service/cmd/api/main.go:41-55 | after save and update of the same id, reads see the later write |
| InMemoryAdapters.SaveValidationResults | challenge-orchestrator-service/cmd/api/main.go:56-62 | a non-empty batch replaces its deployment's results; other deployments keep theirs |
| InMemoryAdapters.SaveValidationResult | challenge-orchestrator-service/cmd/api/main.go:65-69 | appends the result to its deployment's list and touches no other list |
| InMemoryAdapters.GetValidationResults | challenge-orchestrator-service/cmd/api/main.go:70-72 | the deployment's stored list, empty when none |
| InMemoryAdapters.SaveResultPreservesEarlier | challenge-orchestrator-service/cmd/api/main.go:65-72 | two saves for a deployment read back in save order |
| InMemoryAdapters.FindResult | challenge-orchestrator-service/cmd/api/main.go:77-81 | finds a result with the id, none iff no result has it |
| InMemoryAdapters.FindInKeys | challenge-orchestrator-service/cmd/api/main.go:76-83 | finds a result with the id in the listed keys, none iff none there has it |
| InMemoryAdapters.GetValidationResult | challenge-orchestrator-service/cmd/api/main.go:75-85 | a result whose own id matches, whichever deployment holds it; "result not found" iff none |
| InMemoryAdapters.ResultLookupIgnoresOrder | challenge-orchestrator-service/cmd/api/main.go:75-85 | with unique result ids the map's iteration order does not matter |
| InMemoryAdapters.DummyDeploy | challenge-orchestrator-service/cmd/api/main.go:91-99 | deployment "deploy-" + challenge id, for the user, running on one dummy instance |
| InMemoryAdapters.DummyResults | challenge-orchestrator-service/cmd/api/main.go:110-115 | one passing result "val-1" for the deployment |
| RepositoryPort.Wrap | challenge-orchestrator-service/internal/app/deploy_service.go:30 | the prefix, ": ", then the cause, recoverable from the message |
| DeployService.DeployChallenge | challenge-orchestrator-service/internal/app/deploy_service.go:22-48 | a failing save skips the deployer; a failing deploy stores no deployment; success stores the deployment and returns it |
| DeployService.SaveFailureSkipsDeployer | challenge-orchestrator-service/internal/app/deploy_service.go:29-31 | when saving the challenge fails, nothing is deployed and nothing changes |
| DeployService.DeployFailureSavesNoDeployment | challenge-orchestrator-service/internal/app/deploy_service.go:34-40 | a failing deploy returns an error and adds no deployment |
| DeployService.FailedDeployLeavesInvalidStatus | challenge-orchestrator-service/internal/app/deploy_service.go:37 | after a failing deploy the stored challenge has a status the domain rejects |
| DeployService.DeployWritesKnownStatuses | challenge-orchestrator-service/internal/app/deploy_service.go:22-48 | with the corrected status set, every stored challenge status stays known |
| DeployService.DestroyDeployment | challenge-orchestrator-service/internal/app/deploy_service.go:51-58 | calls the deployer once; its error comes back wrapped as "failed to destroy deployment: …"; a repository update error is returned as is; nothing is stored on either; otherwise the deployment is stored as destroyed at the given time and nothing else changes |
| DeployService.GetDeploymentStatus | challenge-orchestrator-service/internal/app/deploy_service.go:62-82 | unknown id fails without a call; otherwise the reported status is stored and returned |
| DeployService.DummyDeploySucceeds | challenge-orchestrator-service/cmd/api/main.go:91-99 | with the dummy deployer a deploy succeeds with "deploy-" + challenge id |
| DeployService.DummyStatusRefreshIsNoOp | challenge-orchestrator-service/cmd/api/main.go:101-103 | refreshing a status with the dummy deployer changes nothing |
| ValidationService.RunValidation | challenge-orchestrator-service/internal/app/validation_service.go:14-37 | an unknown deployment or challenge fails without running; a run's result is stored and returned |
| ValidationService.RunAppendsResult | challenge-orchestrator-service/internal/app/validation_service.go:33-36 | a successful run appends its result to the deployment's results |
| ValidationService.GetValidationResult | challenge-orchestrator-service/internal/app/validation_service.go:41-43 | the repository's lookup by result id |
| DeploymentHandlers.NewChallenge | challenge-orchestrator-service/internal/api/handlers/deployement.go:36-41 | a new challenge with the request's name and manifest, initializing |
| DeploymentHandlers.DeployChallengeHandler | challenge-orchestrator-service/internal/api/handlers/deployement.go:24-54 | 400 for a bad body, 500 when the service fails, 200 with the deployment iff it succeeds |
| DeploymentHandlers.StatusHandler | challenge-orchestrator-service/internal/api/handlers/deployement.go:57-70 | 404 iff the deployment is unknown; otherwise its stored status |
| DeploymentHandlers.DestroyHandler | challenge-orchestrator-service/internal/api/handlers/deployement.go:73-97 | 404 for an unknown deployment; 204 at once, without a call, for an already destroyed one; otherwise one destroy call, answered 204 on success and 500 on error |
| DeploymentHandlers.DestroyIdempotent | challenge-orchestrator-service/internal/api/handlers/deployement.go:84-87 | destroying twice calls the deployer once; the second answer is 204 with nothing changed |
| DeploymentHandlers.ResultsHandler | challenge-orchestrator-service/internal/api/handlers/validation.go:12-40 | 404 for an unknown deployment; otherwise finished iff a result's own id equals the deployment id |
| DeploymentHandlers.ResultsKeyedByResultId | challenge-orchestrator-service/internal/api/handlers/validation.go:23 | the written handler looks up results by result id, not by deployment |
| DeploymentHandlers.ResultsPendingDespiteStoredResult | challenge-orchestrator-service/internal/api/handlers/validation.go:23-31 | with a result stored for the deployment under the result's own id (as the dummy validator's result would be), the written handler still answers pending |
| DeploymentHandlers.ResultsHandlerByDeployment | challenge-orchestrator-service/internal/api/handlers/validation.go:12-40 | the corrected handler: finished with the results iff the deployment has stored results |
| DeploymentHandlers.SavedResultIsFinished | challenge-orchestrator-service/internal/api/handlers/validation.go:34-39 | after a result is saved for the deployment, the corrected handler answers finished |
| ChallengeHandlers.Started | challenge-orchestrator-service/internal/handlers/challenge.go:39-46 | 202 with the job id and "pending", recording exactly one job |
| ChallengeHandlers.Deploy | challenge-orchestrator-service/internal/handlers/challenge.go:21-47 | 401 without a user, 400 for a bad body or no challenge id, else 202 and one deploy job for that user and challenge |
| ChallengeHandlers.Destroy | challenge-orchestrator-service/internal/handlers/challenge.go:49-70 | 401 without a user, 400 without a deployment id, else 202 and one destroy job |
| ChallengeHandlers.Validate | challenge-orchestrator-service/internal/handlers/challenge.go:72-104 | 401, 400 for missing id, bad body or empty flag, else 202 and one validate job carrying the flag |
| ChallengeHandlers.AuthenticationFirst | challenge-orchestrator-service/internal/handlers/challenge.go:22-26 | without a user every endpoint answers 401, whatever the input |
| ChallengeHandlers.JobsCarryCallerAndId | challenge-orchestrator-service/internal/handlers/challenge.go:21-104 | every started job carries the caller's id |
| AuthMiddleware.BearerToken | challenge-orchestrator-service/internal/middleware/auth.go:30-36 | a token is found only in a header that is exactly "Bearer " plus a space-free token |
| AuthMiddleware.BearerTokenOfHeader | challenge-orchestrator-service/internal/middleware/auth.go:30-36 | every space-free token is read back from its header |
| AuthMiddleware.FormatEdgeCases | challenge-orchestrator-service/internal/middleware/auth.go:30-34 | a double space, an inner space or lower-case "bearer" is refused; an empty token is accepted |
| AuthMiddleware.Authenticate | challenge-orchestrator-service/internal/middleware/auth.go:22-47 | missing header and bad format are refused without asking the provider; the provider is asked once with the token; the request goes on iff it knows the token |
| AuthMiddleware.ForwardedUserOwnsToken | challenge-orchestrator-service/internal/middleware/auth.go:36-46 | a valid token forwards the provider's user for that token |
| ValidatorManager.Strip | challenges/challenge-container-creator/challenge/validators/validator-manager.py:28 | the slice of the input left after removing all leading and all trailing whitespace (Python's definition): everything cut off is whitespace and the result starts and ends with none |
| Text.TrimSpec | challenges/challenge-container-creator/challenge/validators/validator-manager.py:28 | trimming removes exactly the leading and trailing whitespace of the runtime in question and leaves the slice between |
| ValidatorManager.StripIdempotent | challenges/challenge-container-creator/challenge/validators/validator-manager.py:28 | stripping twice is stripping once |
| ValidatorManager.CheckOutput | challenges/challenge-container-creator/challenge/validators/validator-manager.py:39-44 | exact comparison after strip; otherwise a match at the start; false with neither |
| ValidatorManager.ValidateOutput | challenges/challenge-container-creator/challenge/validators/validator-manager.py:48-59 | the expected value equals the stripped output, or else the pattern is found anywhere; the stripped output is returned |
| ValidatorManager.CheckAgreesWithValidate | challenges/challenge-container-creator/challenge/validators/validator-manager.py:39-59 | the two checkers agree on expected strings, and a start match is also a match anywhere |
| ValidatorManager.SearchIsNotMatch | challenges/challenge-container-creator/challenge/validators/validator-manager.py:44 | a pattern found later in the output passes validation but fails the start-anchored check |
| ValidatorManager.CommandOutput | challenges/challenge-container-creator/challenge/validators/validator-manager.py:6-35 | the stripped output of a finished command, or "timeout" after polling runs out |
| ValidatorManager.EntryOf | challenges/challenge-container-creator/challenge/validators/validator-manager.py:69-78 | PASS with the success message iff the output validates, else FAIL with the failure message |
| ValidatorManager.StripOfCommandOutput | challenges/challenge-container-creator/challenge/validators/validator-manager.py:28-35 | the command output is already stripped |
| ValidatorManager.RunValidations | challenges/challenge-container-creator/challenge/validators/validator-manager.py:62-80 | one report per step, one entry per validation, in order |
| ValidatorManager.TimeoutIsOrdinaryOutput | challenges/challenge-container-creator/challenge/validators/validator-manager.py:34-35 | a timed-out command whose expected output is "timeout" passes |

## Left out

- Networking, rendering, cookies, toasts and React state are not modelled. Only the decisions these components make are.
- JavaScript objects used as maps (feature matrices, status labels): inherited keys such as `constructor` are not modelled.
- Date formatting with `Intl`, `toFixed` dollar formatting and `Date` parsing are parameters. A deadline that parses to `NaN` is not modelled: the search bar's deadline order takes a total integer ranking.
- Case mapping is ASCII only. For example, 'ß' upper-cases to "SS" in JavaScript; that is not modelled.
- `localeCompare` is an abstract ranking.
- Email-format checking in the schemas is an abstract predicate.
- HMAC-SHA256 is a parameter (the digest).
  - Byte length versus character length of the signature is not distinguished.
- The session middleware's cookie copying is not modelled.
- The auth form's `sendMagicLink` and `verifyOtp` actions are not part of this model. The form takes their replies as parameters.
- The product listing and the catalogue are read once per request. A catalogue that changes between the two reads is not modelled.
- `getDifficultyColor` in the search bar is not modelled (presentational only).
- `formatSubscriptionDate` is not modelled (Intl formatting).
- Sync or customer creation failing part-way: a database failure is all-or-nothing per call.
- The Prisma client's `$disconnect` is not modelled.
- Go goroutines, the Jenkins trigger and the worker are not modelled.
  - Accepted jobs are recorded, not run.
- JSON encoding, `chi` routing, server wiring and `http.Error`'s trailing newline are not modelled.
- `time.Now` is a parameter (`now`).
- Fresh ids (`uuid`) are a parameter.
- Repository failures come from a `Faults` record. When a kind of write fails, every write of that kind fails.
- Python: the SSM polling loop and `boto3` are not modelled. A run is finished or polling-exhausted.
- Python: YAML loading, the `KeyError` of a missing key, the `TypeError` of a non-string pattern, and printing are not modelled.
- ProfileDropdown.FirstChars: takes a word's first character; JavaScript's `word[0]` takes its first UTF-16 code unit, which for an astral first character is a lone surrogate. Names starting with such characters are not modelled exactly.
- ProfileDropdown.Initials: inherits the `word[0]` gap of FirstChars for astral first characters.
- SessionMiddleware.Decide: the cloned URL's origin and fragment are carried over unchanged and are not modelled; only the path and the query parameters are.
- SubscriptionValidation.NoPriceIdNeverDowngrade: says only that a missing price id disables the downgrade rule. It does not say which verdict follows instead.
- PricingSection.CheckoutHrefRoundTrip: reads the link back by splitting on '&', not by `URLSearchParams.get`; percent- and '+'-decoding of the ids is not modelled.
- SearchBar.Order: localeCompare is abstracted to a ranking of titles. The sort is proved stable by that key, not by locale.

## Findings

| source | as written | input that shows it | evidently intended | confidence | as-written member | corrected member |
|---|---|---|---|---|---|---|
| website/src/app/api/webhooks/polar/route.ts:46 | `timingSafeEqual` throws when the signature and digest lengths differ, so the outer catch answers 500 | any request whose `x-polar-signature` is not 64 characters long, e.g. "abc" | a wrong signature of any length is answered 401 "Invalid signature" | high, not executed | PolarWebhook.ShortSignatureAnswers500 | PolarWebhook.PostChecked |
| challenge-orchestrator-service/internal/app/deploy_service.go:37 | a failing deploy stores the challenge with status "failed", which `IsValidChallengeStatus` rejects | a deploy whose deployer returns an error | "failed" is a challenge status the domain accepts | medium, not executed | DeployService.FailedDeployLeavesInvalidStatus | DeployService.DeployWritesKnownStatuses |
| challenge-orchestrator-service/internal/api/handlers/validation.go:23 | looks up a result whose own id equals the deployment id, but results are stored with their own ids: the port's `GetValidationResult` takes a deployment id (challenge-orchestrator-service/internal/app/ports.go:45), while the in-memory adapter compares it with each result's own id (challenge-orchestrator-service/cmd/api/main.go:75-85), so the adapter breaks the port's contract as much as the handler misuses it | hypothetical in the shipped wiring, which never installs the dummy validator (challenge-orchestrator-service/cmd/api/main.go:121-132): any result stored for a deployment under an id other than the deployment's id, such as "val-1" for "deploy-c1", leaves the handler answering pending | the handler answers finished with the deployment's stored results | high, not executed | DeploymentHandlers.ResultsPendingDespiteStoredResult | DeploymentHandlers.SavedResultIsFinished |
