/**
 The first-run tutorial: seven steps shown one at a time, a button that
 advances and on the last step closes, and a row of progress dots.
 */
module Tutorial {

  datatype StepIcon = Key | ShieldCheck | BrainCircuit | Smartphone | AlertTriangle | Globe | ShieldAlert

  /** A step of the tutorial; its description and picture are not modelled. */
  datatype TutorialStep = TutorialStep(title: string, icon: StepIcon)

  const TutorialSteps: seq<TutorialStep> := [
    TutorialStep("Welcome to Your Password Vault", Key),
    TutorialStep("Save Passwords Securely", ShieldCheck),
    TutorialStep("AI Password Analysis", BrainCircuit),
    TutorialStep("Multi-Factor Authentication", Smartphone),
    TutorialStep("Emergency Self-Destruct", AlertTriangle),
    TutorialStep("Dark Web Monitoring", Globe),
    TutorialStep("Phishing Protection", ShieldAlert)]

  const LastStep := |TutorialSteps| - 1

  /** The label of the button that advances: the last step starts the app. */
  function PrimaryButtonLabel(currentStep: int): (caption: string)
    ensures caption == "Get Started" <==> currentStep == LastStep
    ensures caption != "Get Started" ==> caption == "Next"
  {
    if currentStep == LastStep then "Get Started" else "Next"
  }

  /** How a progress dot is drawn. */
  datatype Dot = Current | Completed | Pending

  function DotState(index: int, currentStep: int): (d: Dot)
    ensures d == Current <==> index == currentStep
    ensures d == Completed <==> index < currentStep
    ensures d == Pending <==> index > currentStep
  {
    if index == currentStep then Current
    else if index < currentStep then Completed
    else Pending
  }

  function DotClass(d: Dot): string {
    match d
    case Current => "w-8 bg-blue-600"
    case Completed => "w-2 bg-blue-600"
    case Pending => "w-2 bg-gray-200"
  }

  /** One dot per step, in step order. */
  function ProgressDots(currentStep: int): (dots: seq<Dot>)
    ensures |dots| == |TutorialSteps|
    ensures forall i :: 0 <= i < |dots| ==> dots[i] == DotState(i, currentStep)
  {
    seq(|TutorialSteps|, i => DotState(i, currentStep))
  }

  /** The number of times `d` occurs in `dots`. */
  function Count(dots: seq<Dot>, d: Dot): nat {
    if dots == [] then 0 else (if dots[0] == d then 1 else 0) + Count(dots[1..], d)
  }

  /**
   On any step, exactly one dot is current, the dots before it are completed
   and the dots after it pending.
   */
  lemma OneCurrentDot(currentStep: int)
    requires 0 <= currentStep <= LastStep
    ensures Count(ProgressDots(currentStep), Current) == 1
    ensures Count(ProgressDots(currentStep), Completed) == currentStep
    ensures Count(ProgressDots(currentStep), Pending) == LastStep - currentStep
  {
    var dots := ProgressDots(currentStep);
    CountSplit(dots, currentStep, Current);
    CountSplit(dots, currentStep, Completed);
    CountSplit(dots, currentStep, Pending);
    CountAll(dots[..currentStep], Completed);
    CountNone(dots[..currentStep], Current);
    CountNone(dots[..currentStep], Pending);
    CountAll(dots[currentStep + 1..], Pending);
    CountNone(dots[currentStep + 1..], Current);
    CountNone(dots[currentStep + 1..], Completed);
  }

  lemma {:induction false} CountSplit(dots: seq<Dot>, k: nat, d: Dot)
    requires k < |dots|
    ensures Count(dots, d) == Count(dots[..k], d) + (if dots[k] == d then 1 else 0) + Count(dots[k + 1..], d)
  {
    if k > 0 {
      CountSplit(dots[1..], k - 1, d);
      assert dots[1..][..k - 1] == dots[..k][1..];
      assert dots[1..][k..] == dots[k + 1..];
    } else {
      assert dots[1..] == dots[k + 1..];
    }
  }

  lemma {:induction false} CountAll(dots: seq<Dot>, d: Dot)
    requires forall i :: 0 <= i < |dots| ==> dots[i] == d
    ensures Count(dots, d) == |dots|
  {
    if dots != [] {
      CountAll(dots[1..], d);
    }
  }

  lemma {:induction false} CountNone(dots: seq<Dot>, d: Dot)
    requires forall i :: 0 <= i < |dots| ==> dots[i] != d
    ensures Count(dots, d) == 0
  {
    if dots != [] {
      CountNone(dots[1..], d);
    }
  }

  /** The tutorial's state. */
  class TutorialState {
    var currentStep: int
    var isClosing: bool
    var imageLoaded: bool

    /** The step index always names a step. */
    predicate Valid()
      reads this
    {
      0 <= currentStep <= LastStep
    }

    constructor()
      ensures Valid()
      ensures currentStep == 0 && !isClosing && !imageLoaded
    {
      currentStep := 0;
      isClosing := false;
      imageLoaded := false;
    }

    /** `tutorialSteps[currentStep]` */
    function Step(): TutorialStep
      reads this
      requires Valid()
    {
      TutorialSteps[currentStep]
    }

    /** Before the last step: one step on, with its picture not yet loaded. On the last: close. */
    method HandleNext()
      requires Valid()
      modifies this
      ensures Valid()
      ensures old(currentStep) < LastStep ==>
        currentStep == old(currentStep) + 1 && !imageLoaded && isClosing == old(isClosing)
      ensures old(currentStep) == LastStep ==>
        currentStep == old(currentStep) && isClosing && imageLoaded == old(imageLoaded)
    {
      if currentStep < |TutorialSteps| - 1 {
        imageLoaded := false;
        currentStep := currentStep + 1;
      } else {
        HandleClose();
      }
    }

    /** Starts the closing fade; the delayed `onClose` call is not modelled. */
    method HandleClose()
      requires Valid()
      modifies this
      ensures Valid()
      ensures isClosing
      ensures currentStep == old(currentStep) && imageLoaded == old(imageLoaded)
    {
      isClosing := true;
    }

    /** The picture's `onLoad` handler. */
    method HandleImageLoad()
      requires Valid()
      modifies this
      ensures Valid()
      ensures imageLoaded
      ensures currentStep == old(currentStep) && isClosing == old(isClosing)
    {
      imageLoaded := true;
    }
  }

  /**
   From a fresh tutorial, six presses of the primary button reach the last
   step, which offers "Get Started"; a seventh press closes the tutorial on
   that step.
   */
  method WalkThrough() returns (caption: string, closing: bool, finalStep: int)
    ensures caption == "Get Started" && closing && finalStep == LastStep
  {
    var t := new TutorialState();
    t.HandleNext();
    t.HandleNext();
    t.HandleNext();
    t.HandleNext();
    t.HandleNext();
    t.HandleNext();
    caption := PrimaryButtonLabel(t.currentStep);
    t.HandleNext();
    closing, finalStep := t.isClosing, t.currentStep;
  }
}
