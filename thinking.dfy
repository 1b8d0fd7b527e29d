/**
 * The progress narrator (ThinkingAnimation): a fixed list of labelled steps and a single
 * `currentStep` counter that an 800 ms timer advances until the last step, independently of the
 * request it decorates.
 */
module Thinking {

  /** One labelled stage; an empty `subtext` stands for a missing one (both are falsy). */
  datatype ThinkingStep = ThinkingStep(icon: string, text: string, subtext: string)

  datatype Icon = Database | Brain | Sparkles | LineChart | Loader | CheckCircle

  /** `getIcon`: the four known names map to their icons and anything else to the spinner. */
  function GetIcon(name: string): (icon: Icon)
    ensures name == "database" ==> icon == Database
    ensures name == "brain" ==> icon == Brain
    ensures name == "sparkles" ==> icon == Sparkles
    ensures name == "chart" ==> icon == LineChart
    ensures icon == Loader <==> name !in {"database", "brain", "sparkles", "chart"}
    ensures icon != CheckCircle
  {
    match name
    case "database" => Database
    case "brain" => Brain
    case "sparkles" => Sparkles
    case "chart" => LineChart
    case _ => Loader
  }

  datatype Status = Completed | Current | Pending

  /** `isCompleted = index < currentStep`, `isCurrent = index === currentStep`, otherwise pending. */
  function StatusOf(index: nat, currentStep: nat): (s: Status)
    ensures s == Completed <==> index < currentStep
    ensures s == Current <==> index == currentStep
    ensures s == Pending <==> index > currentStep
  {
    if index < currentStep then Completed
    else if index == currentStep then Current
    else Pending
  }

  /** What one row shows: which icon, whether it spins, and whether the subtext is visible. */
  datatype StepView = StepView(status: Status, icon: Icon, spinning: bool, text: string, showSubtext: bool)

  function ViewOf(step: ThinkingStep, index: nat, currentStep: nat): (v: StepView)
    ensures v.status == StatusOf(index, currentStep)
    ensures v.text == step.text
    ensures v.icon == if index < currentStep then CheckCircle else GetIcon(step.icon)
    ensures v.spinning <==> index == currentStep
    ensures v.showSubtext <==> index == currentStep && step.subtext != []
  {
    var status := StatusOf(index, currentStep);
    StepView(status,
             if status == Completed then CheckCircle else GetIcon(step.icon),
             status == Current,
             step.text,
             step.subtext != [] && status == Current)
  }

  /** The counter after one timer firing: up by one while it is below the last index. */
  function Advance(currentStep: nat, stepCount: nat): (next: nat)
    ensures currentStep + 1 < stepCount ==> next == currentStep + 1
    ensures currentStep + 1 >= stepCount ==> next == currentStep
    ensures currentStep < stepCount ==> next < stepCount
  {
    if currentStep + 1 < stepCount then currentStep + 1 else currentStep
  }

  /** The counter after `ticks` firings from `start`. */
  function AdvanceBy(start: nat, stepCount: nat, ticks: nat): nat
    decreases ticks
  {
    if ticks == 0 then start else Advance(AdvanceBy(start, stepCount, ticks - 1), stepCount)
  }

  /** From the first step, `k` firings reach step `k`, but never beyond the last step. */
  lemma {:induction false} AdvanceByFromStart(stepCount: nat, ticks: nat)
    requires stepCount > 0
    ensures AdvanceBy(0, stepCount, ticks) == if ticks < stepCount then ticks else stepCount - 1
  {
    if ticks > 0 {
      AdvanceByFromStart(stepCount, ticks - 1);
    }
  }

  /** With non-empty steps exactly one index is current; earlier ones are completed, later ones pending. */
  lemma ExactlyOneCurrent(stepCount: nat, currentStep: nat)
    requires currentStep < stepCount
    ensures forall i :: 0 <= i < stepCount ==> (StatusOf(i, currentStep) == Current <==> i == currentStep)
    ensures forall i :: 0 <= i < stepCount && i > currentStep ==> StatusOf(i, currentStep) == Pending
    ensures forall i :: 0 <= i < currentStep ==> StatusOf(i, currentStep) == Completed
  {
  }

  class ThinkingAnimation {
    const steps: seq<ThinkingStep>
    var currentStep: nat
    /** Timers scheduled and not yet fired or cleared. */
    var pendingTimers: nat
    var mounted: bool

    /**
     * The counter stays on a real step (or at 0 when there are none), and while the component is
     * mounted a timer is pending exactly when the counter is below the last index, never two.
     */
    ghost predicate Valid()
      reads this
    {
      && (currentStep == 0 || currentStep < |steps|)
      && pendingTimers == if mounted && currentStep + 1 < |steps| then 1 else 0
    }

    /** Mounting starts at step 0 and runs the effect, which schedules a timer when there is a next step. */
    constructor(steps: seq<ThinkingStep>)
      ensures Valid() && mounted && this.steps == steps && currentStep == 0
      ensures pendingTimers == if |steps| > 1 then 1 else 0
    {
      this.steps := steps;
      currentStep := 0;
      mounted := true;
      pendingTimers := if |steps| > 1 then 1 else 0;
    }

    /**
     * The 800 ms timer fires: the counter goes up by one, the effect's cleanup clears the fired
     * timer and the effect schedules the next one only if there is still a later step.
     */
    method Tick()
      requires Valid()
      modifies this
      ensures Valid() && mounted == old(mounted)
      ensures currentStep == if old(pendingTimers) > 0 then Advance(old(currentStep), |steps|) else old(currentStep)
    {
      if pendingTimers > 0 {
        currentStep := currentStep + 1;
        pendingTimers := pendingTimers - 1;
        if currentStep + 1 < |steps| {
          pendingTimers := pendingTimers + 1;
        }
      }
    }

    /** Teardown: the effect's cleanup cancels the pending timer, so nothing advances afterwards. */
    method Unmount()
      requires Valid()
      modifies this
      ensures Valid() && !mounted && pendingTimers == 0 && currentStep == old(currentStep)
    {
      mounted := false;
      pendingTimers := 0;
    }

    /** The rendered rows, one per step in order. */
    function Views(): (vs: seq<StepView>)
      reads this
      ensures |vs| == |steps|
      ensures forall i :: 0 <= i < |vs| ==> vs[i] == ViewOf(steps[i], i, currentStep)
    {
      var current := currentStep;
      seq(|steps|, i requires 0 <= i < |steps| => ViewOf(steps[i], i, current))
    }
  }

  /** Four steps, two firings: steps 0 and 1 completed, step 2 current, step 3 pending. */
  method FourStepsTwoTicks(steps: seq<ThinkingStep>) returns (views: seq<StepView>)
    requires |steps| == 4
    ensures |views| == 4
    ensures views[0].status == Completed && views[1].status == Completed
    ensures views[2].status == Current && views[3].status == Pending
    ensures views[0].icon == CheckCircle && views[2].spinning
  {
    var narrator := new ThinkingAnimation(steps);
    narrator.Tick();
    narrator.Tick();
    views := narrator.Views();
  }
}
