/**
 * The password strength meter of the website
 * (`website/src/utils/password-strength.ts`): six checks, a score that counts
 * the passed ones, at most two hints for failed ones, and a four-step band.
 */
module PasswordStrength {
  import opened Text
  import Schemas

  datatype Strength = Weak | Fair | Good | Strong

  datatype StrengthResult = StrengthResult(
    strength: Strength,
    score: nat,
    feedback: seq<string>,
    color: string,
    percentage: nat)

  /** The six checks, in the order the meter runs them. */
  datatype Check = MinLength | LongLength | Lowercase | Uppercase | Digit | Special

  const Checks: seq<Check> := [MinLength, LongLength, Lowercase, Uppercase, Digit, Special]

  /**
   * What the checks look at: the length in UTF-16 code units and which
   * character classes occur (the regex tests `/[a-z]/`, `/[A-Z]/`, `/[0-9]/`, `/[!@#$%^&*=]/`).
   */
  datatype Profile = Profile(length: nat, lower: bool, upper: bool, digit: bool, special: bool)

  function ProfileOf(p: string): Profile {
    Profile(Utf16Length(p), Any(p, IsLower), Any(p, IsUpper), Any(p, IsDigit), Any(p, Schemas.IsSpecial))
  }

  predicate Passes(f: Profile, c: Check) {
    match c
    case MinLength => f.length >= 8
    case LongLength => f.length >= 12
    case Lowercase => f.lower
    case Uppercase => f.upper
    case Digit => f.digit
    case Special => f.special
  }

  /** The hint shown when a check fails; the twelve-character bonus has none. */
  function Hint(c: Check): string
    requires c != LongLength
  {
    match c
    case MinLength => "At least 8 characters"
    case Lowercase => "Add lowercase letters"
    case Uppercase => "Add uppercase letters"
    case Digit => "Add numbers"
    case Special => "Add special characters (!@#$%^&*=)"
  }

  /** One point for a passed check (`score++`). */
  function Point(passed: bool): nat {
    if passed then 1 else 0
  }

  /** The hint pushed for a failed check (`feedback.push(hint)`). */
  function Unless(passed: bool, hint: string): seq<string> {
    if passed then [] else [hint]
  }

  /** How many of the checks from position `i` on the password passes. */
  function PassedFrom(f: Profile, i: nat): nat
    decreases |Checks| - i
  {
    if i >= |Checks| then 0 else Point(Passes(f, Checks[i])) + PassedFrom(f, i + 1)
  }

  /** The hints of the failed checks from position `i` on, in check order. */
  function HintsFrom(f: Profile, i: nat): seq<string>
    decreases |Checks| - i
  {
    if i >= |Checks| then []
    else (if Checks[i] == LongLength then [] else Unless(Passes(f, Checks[i]), Hint(Checks[i]))) + HintsFrom(f, i + 1)
  }

  /** The first `n` elements of `xs`, or all of them (`slice(0, n)`). */
  function Take<T>(xs: seq<T>, n: nat): (r: seq<T>)
    ensures |r| <= n && |r| <= |xs| && (|xs| <= n ==> r == xs)
    ensures |xs| > n ==> |r| == n
    ensures forall i | 0 <= i < |r| :: r[i] == xs[i]
  {
    if |xs| <= n then xs else xs[..n]
  }

  /** The band a score falls in: strength, colour and bar percentage. */
  function Band(score: nat): (b: (Strength, string, nat))
    ensures b.0 == Weak <==> score <= 2
    ensures b.0 == Fair <==> 3 <= score <= 4
    ensures b.0 == Good <==> score == 5
    ensures b.0 == Strong <==> score >= 6
    ensures b.2 == match b.0 case Weak => 25 case Fair => 50 case Good => 75 case Strong => 100
  {
    if score <= 2 then (Weak, "rgb(239, 68, 68)", 25)
    else if score <= 4 then (Fair, "rgb(251, 146, 60)", 50)
    else if score <= 5 then (Good, "rgb(234, 179, 8)", 75)
    else (Strong, "rgb(34, 197, 94)", 100)
  }

  /** `calculatePasswordStrength`, each check adding one point or pushing its hint. */
  function CalculatePasswordStrength(p: string): (r: StrengthResult)
    ensures r.score == PassedFrom(ProfileOf(p), 0) && r.score <= 6
    ensures r.feedback == Take(HintsFrom(ProfileOf(p), 0), 2)
    ensures (r.strength, r.color, r.percentage) == Band(r.score)
  {
    var f := ProfileOf(p);
    var score := Point(f.length >= 8) + Point(f.length >= 12)
               + Point(f.lower) + Point(f.upper)
               + Point(f.digit) + Point(f.special);
    var feedback := Unless(f.length >= 8, "At least 8 characters")
                  + (Unless(f.lower, "Add lowercase letters")
                  + (Unless(f.upper, "Add uppercase letters")
                  + (Unless(f.digit, "Add numbers")
                  + Unless(f.special, "Add special characters (!@#$%^&*=)"))));
    UnrollScore(f);
    UnrollHints(f);
    var (strength, color, percentage) := Band(score);
    StrengthResult(strength, score, Take(feedback, 2), color, percentage)
  }

  /** The check list unrolled: one point per passed check. */
  lemma UnrollScore(f: Profile)
    ensures PassedFrom(f, 0)
         == Point(f.length >= 8) + Point(f.length >= 12)
          + Point(f.lower) + Point(f.upper)
          + Point(f.digit) + Point(f.special)
  {
    assert PassedFrom(f, 5) == Point(f.special);
    assert PassedFrom(f, 4) == Point(f.digit) + PassedFrom(f, 5);
    assert PassedFrom(f, 3) == Point(f.upper) + PassedFrom(f, 4);
    assert PassedFrom(f, 2) == Point(f.lower) + PassedFrom(f, 3);
    assert PassedFrom(f, 1) == Point(f.length >= 12) + PassedFrom(f, 2);
  }

  /** The check list unrolled: the hint of each failed check, in order. */
  lemma UnrollHints(f: Profile)
    ensures HintsFrom(f, 0)
         == Unless(f.length >= 8, "At least 8 characters")
          + (Unless(f.lower, "Add lowercase letters")
          + (Unless(f.upper, "Add uppercase letters")
          + (Unless(f.digit, "Add numbers")
          + Unless(f.special, "Add special characters (!@#$%^&*=)"))))
  {
    assert HintsFrom(f, 5) == Unless(f.special, "Add special characters (!@#$%^&*=)");
    assert HintsFrom(f, 4) == Unless(f.digit, "Add numbers") + HintsFrom(f, 5);
    assert HintsFrom(f, 3) == Unless(f.upper, "Add uppercase letters") + HintsFrom(f, 4);
    assert HintsFrom(f, 2) == Unless(f.lower, "Add lowercase letters") + HintsFrom(f, 3);
    assert HintsFrom(f, 1) == HintsFrom(f, 2);
  }

  /** Strong is reached exactly by passwords of twelve or more characters with all four classes. */
  lemma StrongIff(p: string)
    ensures CalculatePasswordStrength(p).strength == Strong
        <==> Utf16Length(p) >= 12 && Any(p, IsLower) && Any(p, IsUpper) && Any(p, IsDigit) && Any(p, Schemas.IsSpecial)
  {
  }

  /** No hint is shown exactly when the password is long enough and has all four classes. */
  lemma NoFeedbackIff(p: string)
    ensures CalculatePasswordStrength(p).feedback == []
        <==> Utf16Length(p) >= 8 && Any(p, IsLower) && Any(p, IsUpper) && Any(p, IsDigit) && Any(p, Schemas.IsSpecial)
    ensures CalculatePasswordStrength(p).feedback == [] ==> CalculatePasswordStrength(p).strength in {Good, Strong}
  {
  }

  /**
   * A password the sign-in rule accepts scores at least four, so the meter
   * never calls it weak; the only hint it can still show is the digit one,
   * which the sign-in rule does not demand.
   */
  lemma AcceptedPasswordIsNotWeak(p: string)
    requires Schemas.PasswordOk(p)
    ensures CalculatePasswordStrength(p).score >= 4
    ensures CalculatePasswordStrength(p).strength != Weak
    ensures CalculatePasswordStrength(p).feedback in {[], ["Add numbers"]}
  {
    var f := ProfileOf(p);
    UnrollHints(f);
    assert f.length >= 8 && f.lower && f.upper && f.special;
    assert HintsFrom(f, 0) == Unless(f.digit, "Add numbers");
  }

  /** A longer score never shows a shorter bar. */
  lemma PercentageMonotone(a: nat, b: nat)
    requires a <= b
    ensures Band(a).2 <= Band(b).2
  {
  }
}
