/** The wizard state of src/pages/Index.tsx (`currentStep`, `completedSteps`, `srsData`) and the
    handlers that change it: `handleNext`, `handlePrevious`, the sidebar click, the Review
    screen's Edit buttons, and the form callbacks that replace the record. */
module Wizard {
  import opened Srs
  import opened Editor
  import opened Validation

  /** `[0, 1, ..., n - 1]` */
  function Range(n: nat): (r: seq<int>)
    ensures |r| == n && forall i :: 0 <= i < n ==> r[i] == i
  {
    seq(n, i => i)
  }

  predicate NoDuplicates(s: seq<int>) {
    forall i, j :: 0 <= i < j < |s| ==> s[i] != s[j]
  }

  /** `Math.round(num / den)`, JavaScript rounding: to the nearest integer, halves upwards. */
  function RoundHalfUp(num: int, den: int): (r: int)
    requires den > 0
    ensures 2 * den * r <= 2 * num + den < 2 * den * (r + 1)
  {
    (2 * num + den) / (2 * den)
  }

  class Wizard {
    var data: SrsData
    var currentStep: int
    /** The steps in the order they were first completed. */
    var completedSteps: seq<int>

    /** The state every handler keeps. Steps are completed strictly in order (only `Next` adds
        one, and only the step it leaves), so the completed steps are always `0, 1, ..., m - 1`,
        and the current step never lies beyond the first step not yet completed. */
    ghost predicate Valid()
      reads this
    {
      && 0 <= currentStep < StepCount
      && |completedSteps| <= StepCount
      && completedSteps == Range(|completedSteps|)
      && currentStep <= |completedSteps|
      && ListsNonEmpty(data)
    }

    /** The terminal step has never been completed. `handleNext` is wired to the Next button,
        which is shown only below the Review step, so this holds in the running wizard. */
    ghost predicate Guarded()
      reads this
    {
      |completedSteps| <= ReviewStep
    }

    /** The sidebar's condition for jumping to step `index`. */
    predicate MayJumpTo(index: int)
      reads this
    {
      index in completedSteps || index <= currentStep
    }

    constructor ()
      ensures Valid() && Guarded()
      ensures data == Initial() && currentStep == 0 && completedSteps == []
    {
      data := Initial();
      currentStep := 0;
      completedSteps := [];
    }

    /** What the invariant means in the terms of the sidebar: the completed steps are distinct
        steps other than Review, unless Next was pressed on it, and every step before the current
        one is completed. */
    lemma ValidFacts()
      requires Valid()
      ensures NoDuplicates(completedSteps)
      ensures forall s :: s in completedSteps ==> 0 <= s < StepCount
      ensures Guarded() ==> forall s :: s in completedSteps ==> s < ReviewStep
      ensures forall k :: 0 <= k < currentStep ==> k in completedSteps
      ensures forall s, k :: s in completedSteps && 0 <= k < s ==> k in completedSteps
    {
      forall k | 0 <= k < currentStep ensures k in completedSteps {
        assert completedSteps[k] == k;
      }
      forall s, k | s in completedSteps && 0 <= k < s ensures k in completedSteps {
        assert completedSteps[k] == k;
      }
    }

    /** `calculateProgress`: `Math.round(completedSteps.length / (steps.length - 1) * 100)`. */
    function CalculateProgress(): (r: int)
      reads this
      ensures r == 20 * |completedSteps|
      ensures Guarded() ==> 0 <= r <= 100
    {
      RoundHalfUp(100 * |completedSteps|, StepCount - 1)
    }

    /** `handleNext`: when the current step validates, record it as completed (once) and move on,
        except from the last step; otherwise report an incomplete section and change nothing. */
    method Next() returns (accepted: bool)
      requires Valid()
      modifies this
      ensures Valid()
      ensures data == old(data)
      ensures accepted == ValidateStep(old(currentStep), old(data))
      ensures !accepted ==> currentStep == old(currentStep) && completedSteps == old(completedSteps)
      ensures accepted ==> (completedSteps ==
        if old(currentStep) in old(completedSteps) then old(completedSteps)
        else old(completedSteps) + [old(currentStep)])
      ensures accepted ==> (currentStep ==
        if old(currentStep) < ReviewStep then old(currentStep) + 1 else old(currentStep))
      ensures old(currentStep) < ReviewStep && old(Guarded()) ==> Guarded()
    {
      accepted := ValidateStep(currentStep, data);
      if accepted {
        assert currentStep < |completedSteps| ==> completedSteps[currentStep] == currentStep;
        if currentStep !in completedSteps {
          assert completedSteps + [currentStep] == Range(|completedSteps| + 1);
          completedSteps := completedSteps + [currentStep];
        }
        if currentStep < StepCount - 1 {
          currentStep := currentStep + 1;
        }
      }
    }

    /** `handlePrevious` */
    method Previous()
      requires Valid()
      modifies this`currentStep
      ensures Valid()
      ensures currentStep == if old(currentStep) > 0 then old(currentStep) - 1 else old(currentStep)
    {
      if currentStep > 0 {
        currentStep := currentStep - 1;
      }
    }

    /** The sidebar entry for step `index` (one of the six steps) was clicked. */
    method JumpTo(index: int)
      requires Valid()
      requires 0 <= index < StepCount
      modifies this`currentStep
      ensures Valid()
      ensures currentStep == if old(MayJumpTo(index)) then index else old(currentStep)
    {
      if index in completedSteps || index <= currentStep {
        if index > currentStep {
          var i :| 0 <= i < |completedSteps| && completedSteps[i] == index;
        }
        currentStep := index;
      }
    }

    /** An Edit button of the Review screen, which is shown only on the Review step and
        offers steps 0 to 4. Its jump is always one the sidebar would allow too. */
    method EditStep(stepIndex: int)
      requires Valid()
      requires currentStep == ReviewStep && 0 <= stepIndex < ReviewStep
      modifies this`currentStep
      ensures Valid()
      ensures old(MayJumpTo(stepIndex))
      ensures currentStep == stepIndex
    {
      currentStep := stepIndex;
    }

    /** The Add button of a list in a step form. */
    method AddArrayItem(f: ListField)
      requires Valid()
      modifies this`data
      ensures Valid()
      ensures data == AddItem(old(data), f)
    {
      EditsKeepListsNonEmpty(data, f, 0, "");
      data := AddItem(data, f);
    }

    /** Typing into entry `index` of a list in a step form. */
    method UpdateArrayItem(f: ListField, index: int, value: string)
      requires Valid()
      modifies this`data
      ensures Valid()
      ensures data == UpdateItem(old(data), f, index, value)
    {
      EditsKeepListsNonEmpty(data, f, index, value);
      data := UpdateItem(data, f, index, value);
    }

    /** The remove button of entry `index`, rendered only while the list has more than one entry. */
    method RemoveArrayItem(f: ListField, index: int)
      requires Valid()
      requires |GetList(data, f)| > 1 && 0 <= index < |GetList(data, f)|
      modifies this`data
      ensures Valid()
      ensures data == RemoveItem(old(data), f, index)
      ensures |GetList(data, f)| == |GetList(old(data), f)| - 1
    {
      EditsKeepListsNonEmpty(data, f, index, "");
      data := RemoveItem(data, f, index);
    }

    /** The `onChange` of a Project Information input. */
    method ChangeProjectInfo(f: ProjectField, value: string)
      requires Valid()
      modifies this`data
      ensures Valid()
      ensures data == SetProjectField(old(data), f, value)
    {
      data := SetProjectField(data, f, value);
      assert forall g :: GetList(data, g) == GetList(old(data), g);
    }

    /** The `onChange` of a Non-Functional Requirements input. */
    method ChangeNonFunctional(f: NonFunctionalField, value: string)
      requires Valid()
      modifies this`data
      ensures Valid()
      ensures data == SetNonFunctionalField(old(data), f, value)
    {
      data := SetNonFunctionalField(data, f, value);
      assert forall g :: GetList(data, g) == GetList(old(data), g);
    }

    /** The `onChange` of a System Architecture text input. */
    method ChangeArchitecture(f: ArchitectureField, value: string)
      requires Valid()
      modifies this`data
      ensures Valid()
      ensures data == SetArchitectureField(old(data), f, value)
    {
      data := SetArchitectureField(data, f, value);
      assert forall g :: GetList(data, g) == GetList(old(data), g);
    }
  }
}
