/** The onboarding store: the answers collected over the five steps and the
    step the user is on. */
module OnboardingStore {
  import opened Wrappers

  datatype OnboardingData = OnboardingData(
    stylePrimary: seq<string>,
    mainContext: Option<string>,
    preferenceBalance: Option<string>,
    improvementGoals: seq<string>,
    startingAction: Option<string>)

  datatype OnboardingState = OnboardingState(data: OnboardingData, currentStep: int)

  const InitialData := OnboardingData([], None, None, [], None)

  const Initial := OnboardingState(InitialData, 1)

  /** The five updaters, one per answer */
  datatype Update =
    | UpdateStyle(styles: seq<string>)
    | UpdateContext(context: Option<string>)
    | UpdateBalance(balance: Option<string>)
    | UpdateGoals(goals: seq<string>)
    | UpdateStartingAction(action: Option<string>)

  /** An updater changes its own answer and nothing else, step included. */
  function Apply(s: OnboardingState, u: Update): (t: OnboardingState)
    ensures t.currentStep == s.currentStep
    ensures t.data.stylePrimary == (if u.UpdateStyle? then u.styles else s.data.stylePrimary)
    ensures t.data.mainContext == (if u.UpdateContext? then u.context else s.data.mainContext)
    ensures t.data.preferenceBalance == (if u.UpdateBalance? then u.balance else s.data.preferenceBalance)
    ensures t.data.improvementGoals == (if u.UpdateGoals? then u.goals else s.data.improvementGoals)
    ensures t.data.startingAction == (if u.UpdateStartingAction? then u.action else s.data.startingAction)
  {
    match u
    case UpdateStyle(x) => s.(data := s.data.(stylePrimary := x))
    case UpdateContext(x) => s.(data := s.data.(mainContext := x))
    case UpdateBalance(x) => s.(data := s.data.(preferenceBalance := x))
    case UpdateGoals(x) => s.(data := s.data.(improvementGoals := x))
    case UpdateStartingAction(x) => s.(data := s.data.(startingAction := x))
  }

  /** `setCurrentStep` changes the step only. */
  function SetCurrentStep(s: OnboardingState, step: int): (t: OnboardingState)
    ensures t.currentStep == step && t.data == s.data
  {
    s.(currentStep := step)
  }

  /** `reset` goes back to the initial answers and step 1. */
  function Reset(s: OnboardingState): (t: OnboardingState)
    ensures t.data == InitialData && t.currentStep == 1
  {
    Initial
  }

  /** Any sequence of updates */
  function ApplyAll(s: OnboardingState, us: seq<Update>): OnboardingState
    decreases |us|
  {
    if us == [] then s else ApplyAll(Apply(s, us[0]), us[1..])
  }

  /** However many answers are given, the step never moves by itself. */
  lemma {:induction false} UpdatesKeepStep(s: OnboardingState, us: seq<Update>)
    ensures ApplyAll(s, us).currentStep == s.currentStep
    decreases |us|
  {
    if us != [] {
      UpdatesKeepStep(Apply(s, us[0]), us[1..]);
    }
  }

  /** Updating two different answers commutes. */
  lemma UpdatesCommute(s: OnboardingState, a: Update, b: Update)
    requires a.UpdateStyle? != b.UpdateStyle? || a.UpdateStyle? == false
    requires a.UpdateContext? != b.UpdateContext? || a.UpdateContext? == false
    requires a.UpdateBalance? != b.UpdateBalance? || a.UpdateBalance? == false
    requires a.UpdateGoals? != b.UpdateGoals? || a.UpdateGoals? == false
    requires a.UpdateStartingAction? != b.UpdateStartingAction? || a.UpdateStartingAction? == false
    ensures Apply(Apply(s, a), b) == Apply(Apply(s, b), a)
  {
  }

  /** `reset` is idempotent and forgets everything done before it. */
  lemma ResetForgets(s: OnboardingState, us: seq<Update>, step: int)
    ensures Reset(Reset(s)) == Reset(s)
    ensures Reset(SetCurrentStep(ApplyAll(s, us), step)) == Initial
  {
  }
}
