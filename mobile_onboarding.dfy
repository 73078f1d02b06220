/** The mobile onboarding walkthrough: six steps, moved through with Next,
    Back and the dot indicators, and left through Get Started or Skip,
    both of which record in local storage that onboarding is done. */
module MobileOnboarding {
  /** The number of steps in the walkthrough. */
  const StepCount: nat := 6

  /** The index of the last step. */
  const Last: nat := StepCount - 1

  /** The local-storage key both exits write. */
  const CompletedKey: string := "mobile_onboarding_completed"

  /** The handler props the component may have been given. */
  datatype Handler = OnComplete | OnSkip

  /** The step Next moves to; on the last step Next completes instead and
      the step stays. */
  function Advance(step: nat): nat {
    if step < StepCount - 1 then step + 1 else step
  }

  /** The step Back moves to; on the first step Back does nothing. */
  function Retreat(step: nat): nat {
    if step > 0 then step - 1 else step
  }

  /** The Back button is rendered only after the first step. */
  predicate BackShown(step: nat) {
    step > 0
  }

  /** The primary button's label. */
  function PrimaryLabel(step: nat): string {
    if step < StepCount - 1 then "Next" else "Get Started"
  }

  /** The progress bar's width in percent, as an exact rational. */
  function Progress(step: nat): real {
    (step + 1) as real / StepCount as real * 100.0
  }

  /** Back undoes Next on every step but the last. */
  lemma BackUndoesNext(step: nat)
    requires step < Last
    ensures Retreat(Advance(step)) == step
  {
  }

  /** Next undoes Back on every step but the first. */
  lemma NextUndoesBack(step: nat)
    requires 0 < step <= Last
    ensures Advance(Retreat(step)) == step
  {
  }

  /** Next leaves the step where it is exactly on the last step, which is
      exactly where the button reads Get Started and the bar is full. */
  lemma LastStepAgrees(step: nat)
    requires step <= Last
    ensures Advance(step) == step <==> step == Last
    ensures PrimaryLabel(step) == "Get Started" <==> step == Last
    ensures Progress(step) == 100.0 <==> step == Last
  {
    assert Progress(Last) == 100.0;
    if step < Last {
      assert Progress(step) < Progress(Last);
    }
  }

  /** Back is offered exactly where pressing it would move. */
  lemma FirstStepAgrees(step: nat)
    ensures BackShown(step) <==> Retreat(step) != step
  {
  }

  /** The bar grows with every step and never passes 100. */
  lemma ProgressGrows(i: nat, j: nat)
    requires i < j <= Last
    ensures 0.0 < Progress(i) < Progress(j) <= 100.0
  {
  }

  /** `n` presses of Next, ignoring the completion they cause. */
  function PressNext(step: nat, n: nat): nat
    decreases n
  {
    if n == 0 then step else PressNext(Advance(step), n - 1)
  }

  /** `n` presses of Back. */
  function PressBack(step: nat, n: nat): nat
    decreases n
  {
    if n == 0 then step else PressBack(Retreat(step), n - 1)
  }

  function Min(a: nat, b: nat): nat {
    if a <= b then a else b
  }

  /** Next presses move one step each until the last step, and stop there. */
  lemma {:induction false} NextPressesClamp(step: nat, n: nat)
    requires step <= Last
    ensures PressNext(step, n) == Min(step + n, Last)
    decreases n
  {
    if n > 0 {
      NextPressesClamp(Advance(step), n - 1);
    }
  }

  /** Back presses move one step each until the first step, and stop there. */
  lemma {:induction false} BackPressesClamp(step: nat, n: nat)
    ensures PressBack(step, n) == if n <= step then step - n else 0
    decreases n
  {
    if n > 0 {
      BackPressesClamp(Retreat(step), n - 1);
    }
  }

  /** The component: the current step, the local storage it writes, and
      the handlers it has called, in order. */
  class Onboarding {
    const hasOnComplete: bool
    const hasOnSkip: bool
    var currentStep: nat
    var storage: map<string, string>
    var handled: seq<Handler>

    /** The current step always indexes the step table. */
    ghost predicate Valid()
      reads this
    {
      currentStep <= Last
    }

    constructor(hasOnComplete: bool, hasOnSkip: bool, storage: map<string, string>)
      ensures Valid()
      ensures this.hasOnComplete == hasOnComplete && this.hasOnSkip == hasOnSkip
      ensures currentStep == 0 && this.storage == storage && handled == []
    {
      this.hasOnComplete := hasOnComplete;
      this.hasOnSkip := hasOnSkip;
      currentStep := 0;
      this.storage := storage;
      handled := [];
    }

    /** Next: one step on, or completion on the last step. */
    method Next()
      requires Valid()
      modifies this
      ensures Valid()
      ensures currentStep == Advance(old(currentStep))
      ensures old(currentStep) < Last ==> storage == old(storage) && handled == old(handled)
      ensures old(currentStep) == Last ==>
                storage == old(storage)[CompletedKey := "true"] &&
                handled == old(handled) + (if hasOnComplete then [OnComplete] else [])
    {
      if currentStep < StepCount - 1 {
        currentStep := currentStep + 1;
      } else {
        Complete();
      }
    }

    /** Back: one step back, except on the first step. */
    method Previous()
      requires Valid()
      modifies this
      ensures Valid()
      ensures currentStep == Retreat(old(currentStep))
      ensures storage == old(storage) && handled == old(handled)
    {
      if currentStep > 0 {
        currentStep := currentStep - 1;
      }
    }

    /** A dot indicator: straight to its step. */
    method JumpTo(index: nat)
      requires index < StepCount
      modifies this
      ensures Valid()
      ensures currentStep == index
      ensures storage == old(storage) && handled == old(handled)
    {
      currentStep := index;
    }

    /** Get Started: record completion, then call `onComplete` if given. */
    method Complete()
      modifies this
      ensures currentStep == old(currentStep)
      ensures storage == old(storage)[CompletedKey := "true"]
      ensures handled == old(handled) + (if hasOnComplete then [OnComplete] else [])
    {
      storage := storage[CompletedKey := "true"];
      if hasOnComplete {
        handled := handled + [OnComplete];
      }
    }

    /** Skip: record completion, then call `onSkip` if given. */
    method Skip()
      modifies this
      ensures currentStep == old(currentStep)
      ensures storage == old(storage)[CompletedKey := "true"]
      ensures handled == old(handled) + (if hasOnSkip then [OnSkip] else [])
    {
      storage := storage[CompletedKey := "true"];
      if hasOnSkip {
        handled := handled + [OnSkip];
      }
    }
  }
}
