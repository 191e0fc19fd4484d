/** The step indicator: four entries, each completed, current or pending. */
module StepIndicator {
  import opened Wrappers
  import opened Types

  /** The entries' keys, in order. */
  const IndicatorSteps: seq<Step> := [PHONE, ROLE, OTP, PROFILE]

  /** What an entry's circle shows: a check mark, or its 1-based position. */
  datatype Badge = Check | Number(n: nat)

  datatype Entry = Entry(key: Step, completed: bool, current: bool, badge: Badge)

  function EntryAt(currentStep: Step, index: nat, key: Step): Entry {
    var completed := currentStep > key;
    Entry(key, completed, currentStep == key, if completed then Check else Number(index + 1))
  }

  /** The rendered entries, or nothing at COMPLETE. */
  function Indicator(currentStep: Step): Option<seq<Entry>> {
    if currentStep == COMPLETE then None
    else Some(seq(|IndicatorSteps|, i requires 0 <= i < |IndicatorSteps| =>
                    EntryAt(currentStep, i, IndicatorSteps[i])))
  }

  /** Nothing is rendered exactly at COMPLETE. */
  lemma HiddenIffComplete(currentStep: Step)
    ensures Indicator(currentStep).None? <==> currentStep == COMPLETE
  {
  }

  /**
   * Before COMPLETE: the four steps in order; an entry is completed iff its key
   * is below the current step and current iff equal, never both; a pending or
   * current entry shows its 1-based position.
   */
  lemma EntriesClassified(currentStep: Step)
    requires currentStep < COMPLETE
    ensures var es := Indicator(currentStep).value;
      |es| == 4 &&
      forall i :: 0 <= i < 4 ==>
        es[i].key == i &&
        (es[i].completed <==> i < currentStep) &&
        (es[i].current <==> i == currentStep) &&
        !(es[i].completed && es[i].current) &&
        (!es[i].completed ==> es[i].badge == Number(i + 1))
  {
  }

  /** Below COMPLETE exactly one entry is current. */
  lemma ExactlyOneCurrent(currentStep: Step)
    requires currentStep < COMPLETE
    ensures var es := Indicator(currentStep).value;
      (exists i :: 0 <= i < |es| && es[i].current) &&
      (forall i, j :: 0 <= i < |es| && 0 <= j < |es| && es[i].current && es[j].current ==> i == j)
  {
    EntriesClassified(currentStep);
    var es := Indicator(currentStep).value;
    assert es[currentStep].current;
  }
}
