/**
 * The challenge validator script
 * (`challenges/challenge-container-creator/challenge/validators/validator-manager.py`):
 * how a command's output is compared with what a validation expects, and
 * how the per-step report is shaped.
 *
 * The regular-expression engine is a parameter `matchesAt(pattern, s, i)`:
 * does `pattern` match `s` starting at index `i`. `re.match` asks at 0,
 * `re.search` at any index. Running a command over the remote shell is a
 * parameter too.
 */
module ValidatorManager {
  import opened Wrappers
  import opened Text

  type Matcher = (string, string, nat) -> bool

  /**
   * `str.strip()`: the slice of `s` between its leading and its trailing
   * whitespace, all of which is removed.
   */
  function Strip(s: string): (r: string)
    ensures exists i, j | 0 <= i <= j <= |s| ::
      && r == s[i..j]
      && (forall k | 0 <= k < i :: IsSpace(Python, s[k]))
      && (forall k | j <= k < |s| :: IsSpace(Python, s[k]))
    ensures |r| == 0 || (!IsSpace(Python, r[0]) && !IsSpace(Python, r[|r| - 1]))
    ensures |r| <= |s|
  {
    TrimSpec(Python, s);
    Trim(Python, s)
  }

  /** Stripping what is already stripped changes nothing. */
  lemma StripIdempotent(s: string)
    ensures Strip(Strip(s)) == Strip(s)
  {
    TrimOfTrimmed(Python, Strip(s));
  }

  /** `re.match(pattern, s) is not None`. */
  predicate ReMatch(matchesAt: Matcher, pattern: string, s: string) {
    matchesAt(pattern, s, 0)
  }

  /** `re.search(pattern, s)` found something. */
  predicate ReSearch(matchesAt: Matcher, pattern: string, s: string) {
    exists i: nat | i <= |s| :: matchesAt(pattern, s, i)
  }

  /** `check_output`: an expected value first, compared with the stripped output; then an anchored pattern; else false. */
  function CheckOutput(matchesAt: Matcher, actual: string, expected: Option<string>, pattern: Option<string>): (ok: bool)
    ensures expected.Some? ==> (ok <==> Strip(actual) == expected.value)
    ensures expected.None? && pattern.Some? ==> (ok <==> ReMatch(matchesAt, pattern.value, Strip(actual)))
    ensures expected.None? && pattern.None? ==> !ok
  {
    if expected.Some? then Strip(actual) == expected.value
    else if pattern.Some? then ReMatch(matchesAt, pattern.value, Strip(actual))
    else false
  }

  /** A YAML value: a string, or anything else (a number, `null`, ...), which never equals a string. */
  datatype Scalar = Str(s: string) | NonString

  /** One entry of a step's `validations`, with its optional keys as options. */
  datatype Validation = Validation(
    name: string,
    command: string,
    timeout: Option<int>,
    expectedOutput: Option<Scalar>,
    expectedPattern: Option<string>,
    successMessage: string,
    failureMessage: string)

  /** `validate_output`: whether the output passes, and the stripped output. */
  function ValidateOutput(matchesAt: Matcher, v: Validation, stdout: string): (r: (bool, string))
    ensures r.1 == Strip(stdout)
    ensures v.expectedOutput.Some? ==> (r.0 <==> v.expectedOutput.value == Str(Strip(stdout)))
    ensures v.expectedOutput.None? && v.expectedPattern.Some? ==> (r.0 <==> ReSearch(matchesAt, v.expectedPattern.value, Strip(stdout)))
    ensures v.expectedOutput.None? && v.expectedPattern.None? ==> !r.0
  {
    var clean := Strip(stdout);
    if v.expectedOutput.Some? then (v.expectedOutput.value == Str(clean), clean)
    else if v.expectedPattern.Some? then (ReSearch(matchesAt, v.expectedPattern.value, clean), clean)
    else (false, clean)
  }

  /** The two checks agree on an exact expected value; an anchored pattern match implies the unanchored one. */
  lemma CheckAgreesWithValidate(matchesAt: Matcher, v: Validation, stdout: string)
    ensures v.expectedOutput.Some? && v.expectedOutput.value.Str? ==>
      CheckOutput(matchesAt, stdout, Some(v.expectedOutput.value.s), None) == ValidateOutput(matchesAt, v, stdout).0
    ensures v.expectedOutput.None? && v.expectedPattern.Some? && CheckOutput(matchesAt, stdout, None, v.expectedPattern) ==>
      ValidateOutput(matchesAt, v, stdout).0
  {
    if v.expectedOutput.None? && v.expectedPattern.Some? && CheckOutput(matchesAt, stdout, None, v.expectedPattern) {
      var zero: nat := 0;
      assert matchesAt(v.expectedPattern.value, Strip(stdout), zero);
    }
  }

  /** A pattern that only matches later in the output passes `validate_output` but fails `check_output`. */
  lemma SearchIsNotMatch()
    ensures var m: Matcher := (p: string, s: string, i: nat) => i == 1;
      var v := Validation("", "", None, None, Some("x"), "", "");
      && ValidateOutput(m, v, "ab").0
      && !CheckOutput(m, "ab", None, Some("x"))
  {
    var m: Matcher := (p: string, s: string, i: nat) => i == 1;
    var one: nat := 1;
    assert Strip("ab") == "ab" by { TrimOfTrimmed(Python, "ab"); }
    assert m("x", "ab", one);
  }

  /** How a remote command ended: finished with its standard output, or never ready within the polling budget. */
  datatype Invocation = Finished(stdout: string) | PollingExhausted

  /** `run_ssm_command`'s result: the stripped standard output, or the word "timeout". */
  function CommandOutput(inv: Invocation): (out: string)
    ensures inv.Finished? ==> out == Strip(inv.stdout)
    ensures inv.PollingExhausted? ==> out == "timeout"
  {
    match inv
    case Finished(stdout) => Strip(stdout)
    case PollingExhausted => "timeout"
  }

  /** `v.get("timeout", 30)`. */
  function TimeoutOf(v: Validation): (t: int)
    ensures v.timeout.Some? ==> t == v.timeout.value
    ensures v.timeout.None? ==> t == 30
  {
    v.timeout.GetOr(30)
  }

  datatype Step = Step(step: int, title: string, validations: seq<Validation>)

  datatype Entry = Entry(name: string, status: string, message: string, output: string)

  datatype StepReport = StepReport(step: int, title: string, results: seq<Entry>)

  /** One validation's report entry. */
  function EntryOf(matchesAt: Matcher, run: (string, int) -> Invocation, v: Validation): (e: Entry)
    ensures var passed := ValidateOutput(matchesAt, v, CommandOutput(run(v.command, TimeoutOf(v)))).0;
      && e.name == v.name
      && (e.status == "PASS" <==> passed) && (e.status == "FAIL" <==> !passed)
      && e.message == (if passed then v.successMessage else v.failureMessage)
      && e.output == CommandOutput(run(v.command, TimeoutOf(v)))
  {
    var output := CommandOutput(run(v.command, TimeoutOf(v)));
    StripOfCommandOutput(run(v.command, TimeoutOf(v)));
    var r := ValidateOutput(matchesAt, v, output);
    Entry(v.name, if r.0 then "PASS" else "FAIL", if r.0 then v.successMessage else v.failureMessage, r.1)
  }

  /** The output of a command is already stripped, so validating it strips nothing more. */
  lemma StripOfCommandOutput(inv: Invocation)
    ensures Strip(CommandOutput(inv)) == CommandOutput(inv)
  {
    match inv
    case Finished(stdout) => StripIdempotent(stdout);
    case PollingExhausted => TrimOfTrimmed(Python, "timeout");
  }

  /** `run_validations`: one report per step, in order, each with one entry per validation, in order. */
  function RunValidations(matchesAt: Matcher, run: (string, int) -> Invocation, config: seq<Step>): (r: seq<StepReport>)
    ensures |r| == |config|
    ensures forall i | 0 <= i < |r| ::
      && r[i].step == config[i].step && r[i].title == config[i].title
      && |r[i].results| == |config[i].validations|
      && forall j | 0 <= j < |r[i].results| :: r[i].results[j] == EntryOf(matchesAt, run, config[i].validations[j])
  {
    seq(|config|, i requires 0 <= i < |config| =>
      StepReport(config[i].step, config[i].title,
                 seq(|config[i].validations|, j requires 0 <= j < |config[i].validations| =>
                       EntryOf(matchesAt, run, config[i].validations[j]))))
  }

  /** A command that never finished is judged on the word "timeout", like any other output. */
  lemma TimeoutIsOrdinaryOutput(matchesAt: Matcher, run: (string, int) -> Invocation, v: Validation)
    requires run(v.command, TimeoutOf(v)) == PollingExhausted
    requires v.expectedOutput == Some(Str("timeout"))
    ensures EntryOf(matchesAt, run, v) == Entry(v.name, "PASS", v.successMessage, "timeout")
  {
    StripOfCommandOutput(PollingExhausted);
  }
}
