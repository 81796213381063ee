/**
 * The orchestrator's authentication middleware
 * (`challenge-orchestrator-service/internal/middleware/auth.go`): the
 * `Authorization` header must be "Bearer" and a token separated by exactly
 * one space; the token is checked with the auth provider, whose answer is a
 * parameter (the user's id, or nothing for an error or no user).
 */
module AuthMiddleware {
  import opened Wrappers
  import opened Text

  /**
   * The token of a well-formed header: `strings.Split(header, " ")` must give
   * exactly two parts, the first being "Bearer" (case-sensitive).
   */
  function BearerToken(header: string): (token: Option<string>)
    ensures token.Some? ==> header == "Bearer " + token.value && ' ' !in token.value
  {
    var parts := Split(header, ' ');
    if |parts| != 2 || parts[0] != "Bearer" then None
    else
      JoinSplit(header, ' ');
      SplitShape(header, ' ');
      assert Join(parts, " ") == parts[0] + " " + Join(parts[1..], " ");
      assert parts[1..] == [parts[1]];
      Some(parts[1])
  }

  /** Every "Bearer " + token with a space-free token is accepted, with that token. */
  lemma {:induction false} BearerTokenOfHeader(t: string)
    requires ' ' !in t
    ensures BearerToken("Bearer " + t) == Some(t)
  {
    assert "Bearer " + t == "Bearer" + [' '] + t;
    SplitPrefix("Bearer", t, ' ');
    SplitNoSep(t, ' ');
  }

  /** A double space or a third word is rejected; a bare "Bearer " passes with an empty token. */
  lemma FormatEdgeCases(t: string)
    ensures BearerToken("Bearer  " + t) == None
    ensures BearerToken("Bearer a b") == None
    ensures BearerToken("Bearer ") == Some("")
    ensures BearerToken("bearer " + t) == None
  {
    assert "Bearer " == "Bearer " + "";
    BearerTokenOfHeader("");
    assert "Bearer  " + t == "Bearer" + [' '] + ("" + [' '] + t);
    SplitPrefix("Bearer", "" + [' '] + t, ' ');
    SplitPrefix("", t, ' ');
    assert "Bearer a b" == "Bearer" + [' '] + ("a" + [' '] + "b");
    SplitPrefix("Bearer", "a" + [' '] + "b", ' ');
    SplitPrefix("a", "b", ' ');
    assert "bearer " + t == "bearer" + [' '] + t;
    SplitPrefix("bearer", t, ' ');
  }

  datatype Outcome = Rejected(text: string) | Forward(userId: string)

  /** The middleware's decision and the tokens it sent to the auth provider. */
  datatype Checked = Checked(outcome: Outcome, providerCalls: seq<string>)

  /** `Authenticate`: every rejection is a 401 with the given text; a known user goes on to the next handler. */
  function Authenticate(header: string, getUser: string -> Option<string>): (c: Checked)
    ensures header == "" ==> c == Checked(Rejected("missing authorization header"), [])
    ensures header != "" && BearerToken(header).None? ==> c == Checked(Rejected("invalid authorization header format"), [])
    ensures c.providerCalls != [] <==> BearerToken(header).Some?
    ensures c.providerCalls != [] ==> c.providerCalls == [BearerToken(header).value]
    ensures c.outcome.Forward? <==> BearerToken(header).Some? && getUser(BearerToken(header).value).Some?
    ensures c.outcome.Forward? ==> c.outcome.userId == getUser(BearerToken(header).value).value
    ensures c.outcome.Rejected? && c.providerCalls != [] ==> c.outcome.text == "invalid token"
  {
    if header == "" then Checked(Rejected("missing authorization header"), [])
    else match BearerToken(header)
      case None => Checked(Rejected("invalid authorization header format"), [])
      case Some(token) =>
        match getUser(token)
        case None => Checked(Rejected("invalid token"), [token])
        case Some(id) => Checked(Forward(id), [token])
  }

  /** The id passed on is the provider's answer for exactly the token after "Bearer ". */
  lemma ForwardedUserOwnsToken(t: string, getUser: string -> Option<string>)
    requires ' ' !in t && getUser(t).Some?
    ensures Authenticate("Bearer " + t, getUser) == Checked(Forward(getUser(t).value), [t])
  {
    BearerTokenOfHeader(t);
  }
}
