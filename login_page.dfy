/** The sign-in page of components/login-page.tsx: a three-step machine (1 authentication,
    2 onboarding, 3 data upload) with a sign-in / sign-up mode. */
module LoginPage {
  import opened Wrappers

  /** `getStepTitle`. */
  function StepTitle(step: int, isSignup: bool): (t: string)
    ensures step !in {1, 2, 3} <==> t == "Welcome"
    ensures step == 1 ==> t == (if isSignup then "Create Your Account" else "Welcome Back")
  {
    if step == 1 then (if isSignup then "Create Your Account" else "Welcome Back")
    else if step == 2 then "Getting Started"
    else if step == 3 then "Data Upload"
    else "Welcome"
  }

  /** `getStepDescription`: empty exactly outside the three steps. */
  function StepDescription(step: int, isSignup: bool): (d: string)
    ensures step !in {1, 2, 3} <==> d == ""
  {
    if step == 1 then
      (if isSignup then "Join thousands of businesses optimizing their taxes" else "Sign in to your TaxEase account")
    else if step == 2 then "Discover how TaxEase can transform your tax management"
    else if step == 3 then "Upload your data to start optimizing your taxes"
    else ""
  }

  /** Within the three steps the title tells the step, and on step 1 also the mode. */
  lemma TitleDeterminesStep(s1: int, m1: bool, s2: int, m2: bool)
    requires s1 in {1, 2, 3} && s2 in {1, 2, 3}
    requires StepTitle(s1, m1) == StepTitle(s2, m2)
    ensures s1 == s2 && (s1 == 1 ==> m1 == m2)
  {
  }

  /** The submit button's caption. */
  function SubmitCaption(isLoading: bool, isSignup: bool): (c: string)
    ensures isLoading <==> c == "Processing..."
  {
    if isLoading then "Processing..." else if isSignup then "Create Account" else "Sign In"
  }

  /** The caption of the mode toggle, naming the mode it switches to. */
  function ToggleCaption(isSignup: bool): (c: string)
    ensures isSignup <==> c == "Already have an account? Sign In"
  {
    if isSignup then "Already have an account? Sign In" else "Don't have an account? Sign Up"
  }

  class Login {
    var step: int
    var isSignup: bool
    var isLoading: bool
    /** The mode the pending authentication timeout captured when the form was submitted. */
    var authSignup: bool

    /** The page opens on step 1 in sign-in mode. */
    constructor ()
      ensures step == 1 && !isSignup && !isLoading && !authSignup
      ensures Valid()
    {
      step := 1;
      isSignup := false;
      isLoading := false;
      authSignup := false;
    }

    function Title(): string
      reads this
    {
      StepTitle(step, isSignup)
    }

    /** The states the page can reach: one of the three steps, and a pending
        authentication only on step 1, where the form is. */
    predicate Valid()
      reads this
    {
      1 <= step <= 3 && (isLoading ==> step == 1)
    }

    /** `handleAuth`: submitting the form starts the simulated authentication; the timeout
        it schedules keeps the mode of this moment. The form is rendered on step 1 only and
        its submit button is disabled while loading, so elsewhere nothing happens. */
    method HandleAuth()
      requires Valid()
      modifies this
      ensures Valid()
      ensures step == old(step) && isSignup == old(isSignup)
      ensures old(step) == 1 && !old(isLoading) ==> isLoading && authSignup == old(isSignup)
      ensures !(old(step) == 1 && !old(isLoading)) ==>
                isLoading == old(isLoading) && authSignup == old(authSignup)
    {
      if step == 1 && !isLoading {
        isLoading := true;
        authSignup := isSignup;
      }
    }

    /** The authentication timeout, which fires only while a submission is pending: a
        sign-up submission moves on to onboarding, a sign-in submission calls `onSuccess`
        (when the caller passed one) and keeps the step. The mode is the one captured at
        submission, even if the toggle was used meanwhile. Returns whether `onSuccess` was
        called. */
    method AuthDone(hasOnSuccess: bool) returns (calledOnSuccess: bool)
      requires Valid()
      modifies this
      ensures Valid()
      ensures !isLoading && isSignup == old(isSignup) && authSignup == old(authSignup)
      ensures !old(isLoading) ==> step == old(step) && !calledOnSuccess
      ensures old(isLoading) && old(authSignup) ==> step == 2 && !calledOnSuccess
      ensures old(isLoading) && !old(authSignup) ==> step == old(step) && calledOnSuccess == hasOnSuccess
    {
      calledOnSuccess := false;
      if !isLoading {
        return;
      }
      isLoading := false;
      if authSignup {
        step := 2;
      } else {
        calledOnSuccess := hasOnSuccess;
      }
    }

    /** `handleOnboarding`, the button of the onboarding step (step 2 only). */
    method HandleOnboarding()
      requires Valid()
      modifies this
      ensures Valid()
      ensures old(step) == 2 ==> step == 3
      ensures old(step) != 2 ==> step == old(step)
      ensures isSignup == old(isSignup) && isLoading == old(isLoading) && authSignup == old(authSignup)
    {
      if step == 2 {
        step := 3;
      }
    }

    /** `handleDataUpload`, the button of the upload step (step 3 only): asks the parent
        (when it passed a setter) for the analyser view; the page's own state is unchanged. */
    method HandleDataUpload(hasSetCurrentView: bool) returns (requested: Option<string>)
      ensures step == 3 && hasSetCurrentView <==> requested == Some("csv-analyzer")
      ensures !(step == 3 && hasSetCurrentView) ==> requested == None
    {
      requested := if step == 3 && hasSetCurrentView then Some("csv-analyzer") else None;
    }

    /** The mode toggle under the form (step 1 only); applying it twice restores the mode. */
    method ToggleSignup()
      requires Valid()
      modifies this
      ensures Valid()
      ensures old(step) == 1 ==> isSignup == !old(isSignup)
      ensures old(step) != 1 ==> isSignup == old(isSignup)
      ensures step == old(step) && isLoading == old(isLoading) && authSignup == old(authSignup)
    {
      if step == 1 {
        isSignup := !isSignup;
      }
    }
  }
}
