/**
 * The redirect decision of the session middleware
 * (`website/src/utils/supabase/middleware.ts`, `updateSession`): which routes
 * need a user, where an anonymous visitor is sent, and the one-hour window
 * after a password-recovery email during which the dashboard is replaced by
 * the reset page.
 *
 * The user and session come from the auth provider and are inputs; `Date`
 * parsing is the parameter `parseTime`, which yields nothing for an
 * unparseable time (where `getTime()` is NaN and every comparison fails).
 * A redirect clones the request URL, so it keeps the request's query
 * parameters, modelled as the list of name-value pairs `URLSearchParams`
 * holds; `set` on that list is `SetParam`.
 */
module SessionMiddleware {
  import opened Wrappers
  import opened Text

  const OneHourMs: int := 60 * 60 * 1000

  /** The parts of the provider's user that the decision reads. */
  datatype User = User(recoverySentAt: Option<string>, isRecovery: bool)

  /** The query string of a URL as `URLSearchParams` holds it: name-value pairs in order. */
  type Query = seq<(string, string)>

  /** Pass the request on, or redirect to `path` with the query string `query`. */
  datatype Decision =
    | PassThrough
    | RedirectTo(path: string, query: Query)

  /** The pairs of `q` whose name is not `k`, in order. */
  function Others(q: Query, k: string): Query {
    if |q| == 0 then [] else (if q[0].0 != k then [q[0]] else []) + Others(q[1..], k)
  }

  /** The values of the pairs of `q` named `k`, in order (`getAll(k)`). */
  function ValuesOf(q: Query, k: string): seq<string> {
    if |q| == 0 then [] else (if q[0].0 == k then [q[0].1] else []) + ValuesOf(q[1..], k)
  }

  /**
   * `URLSearchParams.set(k, v)`: the first pair named `k` takes the value `v`
   * and the later ones are removed; without such a pair, `(k, v)` is appended.
   */
  function SetParam(q: Query, k: string, v: string): (r: Query)
    ensures Others(r, k) == Others(q, k)
    ensures ValuesOf(r, k) == [v]
    ensures ValuesOf(q, k) == [] ==> r == q + [(k, v)]
    ensures ValuesOf(q, k) != [] ==> exists i | 0 <= i < |q| ::
      && q[i].0 == k && Others(q[..i], k) == q[..i]
      && r == q[..i] + [(k, v)] + Others(q[i + 1..], k)
  {
    if ValuesOf(q, k) != [] then
      SetParamInPlace(q, k, v);
      SetFrom(q, k, v, false)
    else
      SetFrom(q, k, v, false)
  }

  /** With a pair named `k` present, the new pair takes the place of the first one. */
  lemma SetParamInPlace(q: Query, k: string, v: string)
    requires ValuesOf(q, k) != []
    ensures exists i | 0 <= i < |q| ::
      && q[i].0 == k && Others(q[..i], k) == q[..i]
      && SetFrom(q, k, v, false) == q[..i] + [(k, v)] + Others(q[i + 1..], k)
  {
    var i := FirstNamed(q, k, v);
  }

  /** The position of the first pair named `k`, where `set` writes the new value. */
  lemma {:induction false} FirstNamed(q: Query, k: string, v: string) returns (i: nat)
    requires ValuesOf(q, k) != []
    ensures i < |q| && q[i].0 == k && Others(q[..i], k) == q[..i]
    ensures SetFrom(q, k, v, false) == q[..i] + [(k, v)] + Others(q[i + 1..], k)
  {
    if q[0].0 == k {
      i := 0;
      SetFromHead(q, k, v);
    } else {
      ListCons(q, k);
      var j := FirstNamed(q[1..], k, v);
      i := j + 1;
      ClearPrefixCons(q, k, j);
      SetFromSkip(q, k, v, j);
    }
  }

  /** A first pair named `k` is where the new pair goes. */
  lemma SetFromHead(q: Query, k: string, v: string)
    requires |q| > 0 && q[0].0 == k
    ensures SetFrom(q, k, v, false) == q[..0] + [(k, v)] + Others(q[1..], k)
  {
    SetFromCons(q, k, v, false);
    SetFromFound(q[1..], k, v);
    assert q[..0] == [];
  }

  /** A pair not named `k` in front of a prefix free of `k` keeps the prefix free of `k`. */
  lemma ClearPrefixCons(q: Query, k: string, j: nat)
    requires j < |q| - 1 && q[0].0 != k && Others(q[1..][..j], k) == q[1..][..j]
    ensures Others(q[..j + 1], k) == q[..j + 1]
  {
    ListCons(q[..j + 1], k);
    assert q[..j + 1][1..] == q[1..][..j];
  }

  /** Skipping a pair not named `k` shifts the place of the first `k` by one. */
  lemma SetFromSkip(q: Query, k: string, v: string, j: nat)
    requires j < |q| - 1 && q[0].0 != k
    requires SetFrom(q[1..], k, v, false) == q[1..][..j] + [(k, v)] + Others(q[1..][j + 1..], k)
    ensures SetFrom(q, k, v, false) == q[..j + 1] + [(k, v)] + Others(q[j + 2..], k)
  {
    SliceShift(q, j);
    SetFromCons(q, k, v, false);
    ConsAssoc(q[0], q[1..][..j], [(k, v)], Others(q[j + 2..], k));
  }

  /** Slicing after dropping the head is slicing one further along. */
  lemma SliceShift<T>(q: seq<T>, j: nat)
    requires j < |q| - 1
    ensures q[..j + 1] == [q[0]] + q[1..][..j] && q[j + 2..] == q[1..][j + 1..]
  {
  }

  /** Concatenation regrouped around a head element. */
  lemma ConsAssoc<T>(x: T, a: seq<T>, b: seq<T>, c: seq<T>)
    ensures [x] + (a + b + c) == ([x] + a) + b + c
  {
  }

  /** `SetFrom` unfolded once. */
  lemma SetFromCons(q: Query, k: string, v: string, found: bool)
    requires |q| > 0
    ensures SetFrom(q, k, v, found)
         == (if q[0].0 != k then [q[0]] else if found then [] else [(k, v)]) + SetFrom(q[1..], k, v, found || q[0].0 == k)
  {
  }

  /** Once the first pair named `k` is written, the later ones are dropped and the rest kept. */
  lemma {:induction false} SetFromFound(q: Query, k: string, v: string)
    ensures SetFrom(q, k, v, true) == Others(q, k)
  {
    if |q| > 0 {
      ListCons(q, k);
      SetFromCons(q, k, v, true);
      SetFromFound(q[1..], k, v);
    }
  }

  /** `SetParam` over the rest of the list, once `found` says whether a pair named `k` was already kept. */
  function SetFrom(q: Query, k: string, v: string, found: bool): (r: Query)
    ensures Others(r, k) == Others(q, k)
    ensures ValuesOf(r, k) == if found then [] else [v]
    ensures !found && ValuesOf(q, k) == [] ==> r == q + [(k, v)]
  {
    if |q| == 0 then
      if found then [] else [(k, v)]
    else
      var rest := SetFrom(q[1..], k, v, found || q[0].0 == k);
      ListCons(q, k);
      if q[0].0 != k then
        ListCons([q[0]] + rest, k);
        [q[0]] + rest
      else if found then
        rest
      else
        ListCons([(k, v)] + rest, k);
        [(k, v)] + rest
  }

  /** `Others` and `ValuesOf` unfolded once. */
  lemma ListCons(q: Query, k: string)
    requires |q| > 0
    ensures Others(q, k) == (if q[0].0 != k then [q[0]] else []) + Others(q[1..], k)
    ensures ValuesOf(q, k) == (if q[0].0 == k then [q[0].1] else []) + ValuesOf(q[1..], k)
  {
  }

  predicate IsAuthRoute(path: string) { StartsWith(path, "/auth") }

  predicate IsDashboardRoute(path: string) { StartsWith(path, "/dashboard") }

  predicate IsPublicRoute(path: string) {
    path == "/" || StartsWith(path, "/_next") || StartsWith(path, "/api")
  }

  /**
   * The user's `recovery_sent_at` is a non-empty string that parses to a time
   * less than one hour before `now`.
   */
  predicate RecoveryPending(user: User, now: int, parseTime: string -> Option<int>) {
    && user.recoverySentAt.Some?
    && user.recoverySentAt.value != ""
    && parseTime(user.recoverySentAt.value).Some?
    && now - parseTime(user.recoverySentAt.value).value < OneHourMs
  }

  /** The anonymous dashboard visitor goes to the sign-in page, which is told where to return. */
  predicate SendsToSignIn(user: Option<User>, path: string) {
    user.None? && IsDashboardRoute(path)
  }

  /** Any other anonymous visitor outside the auth and public routes goes to the sign-in page. */
  predicate SendsAnonymousAway(user: Option<User>, path: string) {
    user.None? && !IsDashboardRoute(path) && !IsAuthRoute(path) && !IsPublicRoute(path)
  }

  /** A dashboard visit within an hour of a recovery email goes to the reset page. */
  predicate SendsToReset(user: Option<User>, hasSession: bool, path: string, now: int, parseTime: string -> Option<int>) {
    user.Some? && hasSession && IsDashboardRoute(path) && RecoveryPending(user.value, now, parseTime)
  }

  function ResetRedirect(query: Query): Decision {
    RedirectTo("/auth/reset-password", SetParam(query, "from", "recovery"))
  }

  /** `updateSession`'s choice for one request. */
  function Decide(user: Option<User>, hasSession: bool, path: string, query: Query, now: int, parseTime: string -> Option<int>)
    : (d: Decision)
    ensures SendsToSignIn(user, path) ==> d == RedirectTo("/auth", SetParam(query, "redirect", path))
    ensures SendsAnonymousAway(user, path) ==> d == RedirectTo("/auth", query)
    ensures SendsToReset(user, hasSession, path, now, parseTime) ==> d == ResetRedirect(query)
    ensures d == PassThrough <==>
      !SendsToSignIn(user, path) && !SendsAnonymousAway(user, path) && !SendsToReset(user, hasSession, path, now, parseTime)
  {
    if IsDashboardRoute(path) && user.None? then
      var url := SetParam(query, "redirect", path);
      RedirectTo("/auth", url)
    else if user.None? && !IsAuthRoute(path) && !IsPublicRoute(path) then
      RedirectTo("/auth", query)
    else if user.Some? && hasSession && IsDashboardRoute(path) then
      var u := user.value;
      if (u.recoverySentAt.Some? && u.recoverySentAt.value != "") || u.isRecovery then
        if u.recoverySentAt.Some? && u.recoverySentAt.value != "" then
          var sent := parseTime(u.recoverySentAt.value);
          if sent.Some? && now - sent.value < OneHourMs then ResetRedirect(query) else PassThrough
        else PassThrough
      else PassThrough
    else PassThrough
  }

  /**
   * The sign-in page finds the dashboard path under `redirect`, once, and
   * every other query parameter of the request unchanged; a parameter that
   * already held a `redirect` value is overwritten.
   */
  lemma SignInRedirectRemembersPath(hasSession: bool, path: string, query: Query, now: int, parseTime: string -> Option<int>)
    requires IsDashboardRoute(path)
    ensures var d := Decide(None, hasSession, path, query, now, parseTime);
      && d.RedirectTo? && d.path == "/auth"
      && ValuesOf(d.query, "redirect") == [path]
      && Others(d.query, "redirect") == Others(query, "redirect")
  {
  }

  /** A redirect sends the visitor to the sign-in page or to the reset page, and nowhere else. */
  lemma RedirectTargets(user: Option<User>, hasSession: bool, path: string, query: Query, now: int, parseTime: string -> Option<int>)
    ensures var d := Decide(user, hasSession, path, query, now, parseTime);
      d.RedirectTo? ==> d.path == "/auth" || (d.path == "/auth/reset-password" && ValuesOf(d.query, "from") == ["recovery"])
  {
  }

  /** The three route classes never overlap. */
  lemma RouteClassesDisjoint(path: string)
    ensures !(IsAuthRoute(path) && IsDashboardRoute(path))
    ensures !(IsAuthRoute(path) && IsPublicRoute(path))
    ensures !(IsDashboardRoute(path) && IsPublicRoute(path))
  {
    if IsAuthRoute(path) {
      assert path[1] == path[..5][1] == 'a';
    }
    if IsDashboardRoute(path) {
      assert path[1] == path[..10][1] == 'd';
    }
    if StartsWith(path, "/_next") {
      assert path[1] == path[..6][1] == '_';
    }
    if StartsWith(path, "/api") {
      assert path[1] == path[..4][1] == 'a';
      assert path[2] == path[..4][2] == 'p';
    }
    if IsAuthRoute(path) {
      assert path[2] == path[..5][2] == 'u';
    }
  }

  /** Classification is by prefix: any path that extends "/dashboard" is a dashboard route. */
  lemma DashboardIsPrefixBased(suffix: string)
    ensures IsDashboardRoute("/dashboard" + suffix)
  {
    assert ("/dashboard" + suffix)[..10] == "/dashboard";
  }

  /** An anonymous request to an auth or public page is passed on untouched. */
  lemma AnonymousOpenRoutesPass(hasSession: bool, path: string, query: Query, now: int, parseTime: string -> Option<int>)
    requires IsAuthRoute(path) || IsPublicRoute(path)
    ensures Decide(None, hasSession, path, query, now, parseTime) == PassThrough
  {
    RouteClassesDisjoint(path);
  }

  /** A signed-in request is redirected only on dashboard routes, so the reset page itself is reachable. */
  lemma SignedInOffDashboardPasses(u: User, hasSession: bool, path: string, query: Query, now: int, parseTime: string -> Option<int>)
    requires !IsDashboardRoute(path)
    ensures Decide(Some(u), hasSession, path, query, now, parseTime) == PassThrough
  {
  }

  /** `is_recovery` in the user metadata never changes the decision. */
  lemma IsRecoveryIrrelevant(sentAt: Option<string>, hasSession: bool, path: string, query: Query, now: int, parseTime: string -> Option<int>)
    ensures Decide(Some(User(sentAt, true)), hasSession, path, query, now, parseTime)
         == Decide(Some(User(sentAt, false)), hasSession, path, query, now, parseTime)
  {
  }

  /** The reset page is itself an auth route and not a dashboard route. */
  lemma ResetPageIsAuthRoute()
    ensures IsAuthRoute("/auth/reset-password") && !IsDashboardRoute("/auth/reset-password")
  {
    RouteClassesDisjoint("/auth/reset-password");
  }
}
