/** Which content an onboarding step shows. */
module OnboardingStepContent {
  import opened JsText

  /** A step entry; its `label` (named `stepLabel` here, `label` being a keyword) may be absent. */
  datatype Step = Step(stepLabel: Option<string>)

  /** The rendered content; the profile form carries the change handler it is wired to. */
  datatype Content<H> = InvalidStep | ProfileForm(onChange: H) | StepNotFound

  /**
   * A missing step list or a step outside it is refused; a step labelled
   * "User Profile" shows the profile form wired to `handleFormChange`; any other
   * step is not found.
   */
  function Render<H>(currentStep: int, steps: Option<seq<Step>>, handleFormChange: H): (r: Content<H>)
    ensures r.InvalidStep? <==> steps.None? || currentStep < 0 || currentStep >= |steps.value|
    ensures r.ProfileForm? <==> !r.InvalidStep? && steps.value[currentStep].stepLabel == Some("User Profile")
    ensures r.ProfileForm? ==> r.onChange == handleFormChange
  {
    if steps.None? || currentStep < 0 || currentStep >= |steps.value| then InvalidStep
    else if steps.value[currentStep].stepLabel == Some("User Profile") then ProfileForm(handleFormChange)
    else StepNotFound
  }
}
