/**
 * The landing page's auto-layout card (`website/src/components/auto-layout-card.tsx`):
 * a click cycles the step 1 → 2 → 3 → 1, each step has its own style, and
 * the third step shows an extra row of cards.
 */
module AutoLayoutCard {
  /** `type Step = 1 | 2 | 3`. */
  type Step = s: int | 1 <= s <= 3 witness 1

  const Initial: Step := 1

  /** `handleClick`: `(prevStep % 3) + 1`. */
  function NextStep(s: Step): (n: Step)
    ensures s == 1 ==> n == 2
    ensures s == 2 ==> n == 3
    ensures s == 3 ==> n == 1
    ensures n != s
  {
    (s % 3) + 1
  }

  /** The step after `clicks` clicks from the initial one. */
  function StepAfter(clicks: nat): (s: Step)
    ensures clicks % 3 == 0 ==> s == 1
    ensures clicks % 3 == 1 ==> s == 2
    ensures clicks % 3 == 2 ==> s == 3
  {
    if clicks == 0 then Initial else NextStep(StepAfter(clicks - 1))
  }

  /** Three clicks bring any step back to itself, and no fewer do. */
  lemma ThreeClicksReturn(s: Step)
    ensures NextStep(NextStep(NextStep(s))) == s
    ensures NextStep(NextStep(s)) != s
  {
  }

  datatype Height = Auto | Pixels(px: int)
  datatype Direction = Row | Column

  /** The layout fields of `StepStyle` that depend on the step. */
  datatype StepStyle = StepStyle(
    containerWidth: int,
    containerHeight: Height,
    imageHeight: int,
    contentDirection: Direction,
    infoDirection: Direction)

  /** `stepStyles`. */
  function StyleOf(s: Step): (st: StepStyle)
    ensures st.containerHeight.Pixels? <==> s == 3
    ensures st.contentDirection == Row <==> s == 3
    ensures st.infoDirection == Row <==> s != 1
  {
    match s
    case 1 => StepStyle(400, Auto, 230, Column, Column)
    case 2 => StepStyle(550, Auto, 280, Column, Row)
    case 3 => StepStyle(700, Pixels(600), 330, Row, Row)
  }

  /** Width and image height grow with the step. */
  lemma StylesGrow(a: Step, b: Step)
    requires a < b
    ensures StyleOf(a).containerWidth < StyleOf(b).containerWidth
    ensures StyleOf(a).imageHeight < StyleOf(b).imageHeight
  {
  }

  /** `step === 3 && ...`: the extra card row is shown on the third step only. */
  function ShowsCardRow(s: Step): (shown: bool)
    ensures shown <==> NextStep(s) == Initial
  {
    s == 3
  }
}
