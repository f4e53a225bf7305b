/**
 * The "装套类型选择" wizard opened from the parameter list. It asks up to
 * three questions, one per step, and reports a status change as soon as an
 * answer settles the vehicle's print track:
 *   step 0  operation: reprint / supplement finish at once, anything else goes on;
 *   step 1  chassis:   "yes" finishes as "chassis", anything else goes on;
 *   step 2  order:     "yes" finishes as "order", anything else goes on;
 *   step 3  the whole-vehicle stage finishes as "whole".
 */
module StatusChange {
  import opened Common
  import opened Js

  const TrackTags: set<string> := {"reprint", "supplement", "chassis", "order", "whole"}

  const SuccessNotice := "状态更新成功"
  const FailureNotice := "状态更新失败"

  /** The form field the radio group of a question step is bound to. */
  function FieldAt(step: nat): string
    requires step < 3
  {
    if step == 0 then "operation" else if step == 1 then "isChassis" else "isOrder"
  }

  /** The radio values a question step offers. */
  function OptionsAt(step: nat): set<string>
    requires step < 3
  {
    if step == 0 then {"reprint", "supplement", "normal"} else {"yes", "no"}
  }

  /**
   * The print track a complete set of answers settles on: the end-to-end
   * decision the wizard implements, stated without steps.
   */
  function Classify(operation: string, isChassis: string, isOrder: string): (tag: string)
    ensures tag in TrackTags
    ensures tag == "whole" <==>
              operation != "reprint" && operation != "supplement" && isChassis != "yes" && isOrder != "yes"
  {
    if operation == "reprint" || operation == "supplement" then operation
    else if isChassis == "yes" then "chassis"
    else if isOrder == "yes" then "order"
    else "whole"
  }

  /** What one press of "next" does at a step, given the validated answer. */
  datatype NextEffect =
    | Submit(tag: string)  // report the status change with this track
    | Advance(to: nat)     // move to the next step
    | Invalid              // the required rule of the step's field fails

  function NextEffectAt(step: nat, answer: Option<string>): (e: NextEffect)
    requires step <= 3
    ensures e.Invalid? <==> step < 3 && answer.None?
    ensures e.Advance? ==> step < 3 && e.to == step + 1 && answer.Some?
    ensures e.Submit? ==> e.tag in TrackTags
    ensures step == 3 ==> e == Submit("whole")
    ensures step < 3 && answer.Some? ==>
      (e.Submit? <==> (step == 0 && answer.value in {"reprint", "supplement"}) || (0 < step && answer.value == "yes"))
    ensures step < 3 && e.Submit? ==> e.tag == (if step == 0 then answer.value else if step == 1 then "chassis" else "order")
  {
    if step == 3 then Submit("whole")
    else if answer.None? then Invalid
    else
      var a := answer.value;
      if step == 0 then
        (if a == "reprint" || a == "supplement" then Submit(a) else Advance(1))
      else if step == 1 then
        (if a == "yes" then Submit("chassis") else Advance(2))
      else
        (if a == "yes" then Submit("order") else Advance(3))
  }

  /**
   * The track reported when "next" is pressed from `step` once per
   * remaining question, answering them with `answers` in order; None when
   * the answers run out first.
   */
  function Run(step: nat, answers: seq<string>): (r: Option<string>)
    requires step <= 3
    ensures r.None? ==> |answers| < 3 - step
    ensures step == 3 ==> r == Some("whole")
    decreases 3 - step
  {
    var answer := if step < 3 && |answers| > 0 then Some(answers[0]) else None;
    match NextEffectAt(step, answer)
    case Submit(t) => Some(t)
    case Invalid => None
    case Advance(n) => Run(n, answers[1..])
  }

  /** Walking the steps reports exactly the track the answers classify to. */
  lemma RunClassifies(operation: string, isChassis: string, isOrder: string)
    ensures Run(0, [operation, isChassis, isOrder]) == Some(Classify(operation, isChassis, isOrder))
  {
    var answers := [operation, isChassis, isOrder];
    assert answers[1..] == [isChassis, isOrder];
    assert answers[1..][1..] == [isOrder];
    assert answers[1..][1..][1..] == [];
  }

  /** A reported track is always one of the five the backend knows. */
  lemma {:induction false} RunReportsTrackTag(step: nat, answers: seq<string>)
    requires step <= 3
    ensures Run(step, answers).Some? ==> Run(step, answers).value in TrackTags
    decreases 3 - step
  {
    var answer := if step < 3 && |answers| > 0 then Some(answers[0]) else None;
    match NextEffectAt(step, answer)
    case Submit(t) =>
    case Invalid =>
    case Advance(n) => RunReportsTrackTag(n, answers[1..]);
  }

  /** Every track is reachable: each has answers that lead to it. */
  lemma EveryTrackReachable(tag: string)
    requires tag in TrackTags
    ensures exists op, ch, ord :: op in OptionsAt(0) && ch in OptionsAt(1) && ord in OptionsAt(2)
                                  && Classify(op, ch, ord) == tag
  {
    if tag == "reprint" || tag == "supplement" {
      assert Classify(tag, "no", "no") == tag;
    } else if tag == "chassis" {
      assert Classify("normal", "yes", "no") == tag;
    } else if tag == "order" {
      assert Classify("normal", "no", "yes") == tag;
    } else {
      assert Classify("normal", "no", "no") == tag;
    }
  }

  /** The label of the primary button. */
  function ButtonText(step: nat): (text: string)
    ensures text == "完成打印" <==> step == 3
    ensures step != 3 ==> text == "下一步"
  {
    if step == 3 then "完成打印" else "下一步"
  }

  /** The answers recorded so far (`stepData`). */
  datatype StepData = StepData(operation: string, isChassis: string, isOrder: string)

  const EmptyStepData := StepData("", "", "")

  /** One `onStatusChange(record, { vin, type })` call. */
  datatype StatusUpdate = StatusUpdate(record: JsValue, vin: JsValue, tag: string)

  class StatusChangeModal {
    var open: bool
    var record: JsValue
    var currentStep: nat
    var stepData: StepData
    /** The wizard form's values: the radio answers picked and not reset yet. */
    var form: map<string, string>
    /** Every status change reported to the parent, in order. */
    var submitted: seq<StatusUpdate>
    /** Every notice shown, in order. */
    var notices: seq<string>

    /**
     * The wizard only stands at a step when the answers recorded before it
     * routed past every earlier finish.
     */
    ghost predicate Valid()
      reads this
    {
      currentStep <= 3
      && (currentStep >= 1 ==> stepData.operation != "reprint" && stepData.operation != "supplement")
      && (currentStep >= 2 ==> stepData.isChassis != "yes")
      && (currentStep == 3 ==> stepData.isOrder != "yes")
    }

    function Answer(): Option<string>
      reads this
    {
      if currentStep < 3 && FieldAt(currentStep) in form then Some(form[FieldAt(currentStep)]) else None
    }

    constructor (open: bool, record: JsValue)
      ensures Valid()
      ensures this.open == open && this.record == record
      ensures currentStep == 0 && stepData == EmptyStepData && form == map[]
      ensures submitted == [] && notices == []
    {
      this.open := open;
      this.record := record;
      currentStep := 0;
      stepData := EmptyStepData;
      form := map[];
      submitted := [];
      notices := [];
    }

    /**
     * New `open`/`record` props. When either changed and the modal is open
     * on a truthy record, the wizard starts over: step 0, no answers.
     */
    method SetProps(newOpen: bool, newRecord: JsValue)
      requires Valid()
      modifies this
      ensures Valid()
      ensures open == newOpen && record == newRecord
      ensures submitted == old(submitted) && notices == old(notices)
      ensures if (newOpen != old(open) || newRecord != old(record)) && newOpen && Truthy(newRecord)
              then currentStep == 0 && stepData == EmptyStepData && form == map[]
              else currentStep == old(currentStep) && stepData == old(stepData) && form == old(form)
    {
      var changed := newOpen != open || newRecord != record;
      open := newOpen;
      record := newRecord;
      if changed && newOpen && Truthy(newRecord) {
        currentStep := 0;
        stepData := EmptyStepData;
        form := map[];
      }
    }

    /** The user picks one of the current question's radio values. */
    method Pick(value: string)
      requires Valid() && open && currentStep < 3 && value in OptionsAt(currentStep)
      modifies this
      ensures Valid()
      ensures currentStep == old(currentStep) && open == old(open) && record == old(record)
      ensures form == old(form)[FieldAt(currentStep) := value]
      ensures Answer() == Some(value)
      ensures stepData == old(stepData) && submitted == old(submitted) && notices == old(notices)
    {
      form := form[FieldAt(currentStep) := value];
    }

    /**
     * "下一步" / "完成打印". `succeeds` is whether the parent's
     * `onStatusChange` resolves. A nullish record makes reading its `vin`
     * throw, which the handler swallows: nothing is reported.
     */
    method HandleNext(succeeds: bool)
      requires Valid() && open
      modifies this
      ensures Valid()
      ensures record == old(record)
      ensures var e := NextEffectAt(old(currentStep), old(Answer()));
        && (e.Invalid? ==>
              open && currentStep == old(currentStep) && stepData == old(stepData)
              && form == old(form) && submitted == old(submitted) && notices == old(notices))
        && (e.Advance? ==>
              open && currentStep == e.to && submitted == old(submitted) && notices == old(notices)
              && form == (if e.to < 3 then map[] else old(form)))
        && (e.Submit? && Nullish(record) ==>
              open && currentStep == old(currentStep) && form == old(form)
              && submitted == old(submitted) && notices == old(notices))
        && (e.Submit? && !Nullish(record) ==>
              currentStep == old(currentStep) && form == old(form)
              && submitted == old(submitted) + [StatusUpdate(record, Get(record, "vin"), e.tag)]
              && (succeeds ==> !open && notices == old(notices) + [SuccessNotice])
              && (!succeeds ==> open && notices == old(notices) + [FailureNotice]))
      ensures old(currentStep) < 3 && old(Answer()).Some? ==>
                stepData == RecordAnswer(old(stepData), old(currentStep), old(Answer()).value)
      /** The reported track is the one the recorded answers classify to. */
      ensures |submitted| > |old(submitted)| ==>
                submitted[|submitted| - 1].tag == Classify(stepData.operation, stepData.isChassis, stepData.isOrder)
    {
      var e := NextEffectAt(currentStep, Answer());
      if e.Invalid? {
        return;
      }
      if currentStep < 3 {
        stepData := RecordAnswer(stepData, currentStep, Answer().value);
      }
      match e
      case Advance(n) =>
        currentStep := n;
        if n < 3 {
          form := map[];
        }
      case Submit(tag) =>
        if !Nullish(record) {
          submitted := submitted + [StatusUpdate(record, Get(record, "vin"), tag)];
          if succeeds {
            notices := notices + [SuccessNotice];
            open := false;
          } else {
            notices := notices + [FailureNotice];
          }
        }
    }

    /** "上一步": one step back, never below 0; the answers are cleared from the form. */
    method HandlePrev()
      requires Valid() && open
      modifies this
      ensures Valid()
      ensures currentStep == if old(currentStep) == 0 then 0 else old(currentStep) - 1
      ensures form == map[]
      ensures open == old(open) && record == old(record) && stepData == old(stepData)
      ensures submitted == old(submitted) && notices == old(notices)
    {
      currentStep := if currentStep == 0 then 0 else currentStep - 1;
      form := map[];
    }
  }

  /** `setStepData({ ...stepData, <field of step>: answer })` */
  function RecordAnswer(d: StepData, step: nat, answer: string): (r: StepData)
    requires step < 3
    ensures step == 0 ==> r == d.(operation := answer)
    ensures step == 1 ==> r == d.(isChassis := answer)
    ensures step == 2 ==> r == d.(isOrder := answer)
  {
    if step == 0 then d.(operation := answer)
    else if step == 1 then d.(isChassis := answer)
    else d.(isOrder := answer)
  }
}
