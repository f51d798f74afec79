/**
 * The assembly-steps screen: a stepper over the parts of the loaded model.
 * `totalSteps` is whatever the preview last reported; a step is moved only
 * by the two buttons.
 */
module Steps {
  import opened Wrappers

  /** The `ldrUrl` route parameter: absent, one value, or repeated. */
  datatype Param = Missing | Single(value: string) | Multiple(values: seq<string>)

  /** `(Array.isArray(ldrUrl) ? ldrUrl[0] : ldrUrl) || null`: the url handed to the preview. */
  function PreviewUrl(p: Param): (r: Option<string>)
    ensures r.Some? ==> r.value != ""
    ensures r.Some? ==> (p.Single? && r.value == p.value) || (p.Multiple? && p.values != [] && r.value == p.values[0])
    ensures r == None <==>
              p.Missing? || (p.Single? && p.value == "") || (p.Multiple? && (p.values == [] || p.values[0] == ""))
  {
    var first := match p
      case Missing => ""
      case Single(v) => v
      case Multiple(vs) => if vs == [] then "" else vs[0];
    if first == "" then None else Some(first)
  }

  /** The step after `handleNext`. */
  function StepAfterNext(current: int, total: int): (next: int)
    ensures next == current || (current < total && next == current + 1)
    ensures current < total ==> next > current
  {
    if current < total then current + 1 else current
  }

  /** The step after `handlePrev`. */
  function StepAfterPrev(current: int): (prev: int)
    ensures prev == current || (current > 1 && prev == current - 1)
    ensures current > 1 ==> prev < current
  {
    if current > 1 then current - 1 else current
  }

  /** The buttons never take the step below 1, and Next never takes it past the step count of the moment. */
  lemma StepsStayInRange(current: int, total: int)
    requires current >= 1
    ensures StepAfterPrev(current) >= 1 && StepAfterNext(current, total) >= 1
    ensures StepAfterNext(current, total) <= if current <= total then total else current
  {
  }

  /** Away from both ends, Prev undoes Next and Next undoes Prev. */
  lemma PrevNextInverse(current: int, total: int)
    requires 1 <= current
    ensures current < total ==> StepAfterPrev(StepAfterNext(current, total)) == current
    ensures 1 < current <= total ==> StepAfterNext(StepAfterPrev(current), total) == current
  {
  }

  /** Pressing Next `n` times from `current`. */
  function NextPresses(current: int, total: int, n: nat): int
    decreases n
  {
    if n == 0 then current else NextPresses(StepAfterNext(current, total), total, n - 1)
  }

  /** From step 1, enough presses of Next reach the last step and stay there. */
  lemma {:induction false} NextReachesLast(current: int, total: int, n: nat)
    requires 1 <= current <= total
    ensures NextPresses(current, total, n) == if current + n <= total then current + n else total
    decreases n
  {
    if n > 0 {
      NextReachesLast(StepAfterNext(current, total), total, n - 1);
    }
  }

  /** The screen's state: the step shown and the step count reported by the preview. */
  class StepsScreen {
    var currentStep: int
    var totalSteps: int
    const previewUrl: Option<string>

    ghost predicate Valid()
      reads this
    {
      currentStep >= 1
    }

    constructor (ldrUrl: Param)
      ensures Valid() && currentStep == 1 && totalSteps == 1 && previewUrl == PreviewUrl(ldrUrl)
    {
      currentStep := 1;
      totalSteps := 1;
      previewUrl := PreviewUrl(ldrUrl);
    }

    method HandleNext()
      requires Valid()
      modifies this`currentStep
      ensures Valid()
      ensures currentStep == StepAfterNext(old(currentStep), totalSteps)
    {
      if currentStep < totalSteps {
        currentStep := currentStep + 1;
      }
    }

    method HandlePrev()
      requires Valid()
      modifies this`currentStep
      ensures Valid()
      ensures currentStep == StepAfterPrev(old(currentStep))
    {
      if currentStep > 1 {
        currentStep := currentStep - 1;
      }
    }

    /** The preview's `onStepCountChange`: the only writer of `totalSteps`; the step is left as it is. */
    method OnStepCountChange(count: nat)
      requires Valid()
      modifies this`totalSteps
      ensures Valid()
      ensures totalSteps == count
    {
      totalSteps := count;
    }
  }

  /** The Prev button is disabled exactly on the first step. */
  predicate PrevDisabled(current: int) {
    current == 1
  }

  /** The Next button is disabled exactly when the step equals the step count. */
  predicate NextDisabled(current: int, total: int) {
    current == total
  }

  /**
   * A disabled button guards a no-op: Prev is disabled exactly when pressing
   * it would change nothing, and so is Next while the step is within the count.
   */
  lemma DisabledButtonsAreNoOps(current: int, total: int)
    requires current >= 1
    ensures PrevDisabled(current) <==> StepAfterPrev(current) == current
    ensures NextDisabled(current, total) ==> StepAfterNext(current, total) == current
    ensures current <= total ==> (NextDisabled(current, total) <==> StepAfterNext(current, total) == current)
  {
  }
}
