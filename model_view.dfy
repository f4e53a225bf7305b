/**
 * The model-parameter modal ("车型参数"): a form shown in add, edit or view
 * mode, with a template selector that fills a new model from an existing one.
 */
module ModelView {
  import opened Js
  import opened Text
  import Forms
  import ParameterList

  // ---------------------------------------------------------------- pure parts

  predicate IsReadOnly(mode: string) {
    mode == "view"
  }

  const ViewTitle := "查看车型参数"

  function OkText(mode: string): (text: string)
    ensures text == "关闭" <==> IsReadOnly(mode)
    ensures !IsReadOnly(mode) ==> text == "确定"
  {
    if IsReadOnly(mode) then "关闭" else "确定"
  }

  /** A read-only modal is titled as a view; the two editable modes have titles of their own. */
  lemma TitleAgreesWithReadOnly(mode: string)
    ensures IsReadOnly(mode) ==> ParameterList.ModalTitle(mode, ViewTitle) == "查看车型参数"
    ensures ParameterList.ModalTitle(mode, ViewTitle) == "查看车型参数" <==> mode != "add" && mode != "edit"
  {
  }

  /** The template selector is offered only for a new model and only when there is something to copy. */
  predicate ShowTemplateSelector(mode: string, models: seq<JsValue>) {
    mode == "add" && |models| > 0
  }

  /** The option label of a template: `${modelCode} - ${vehicleBrand}`. */
  function OptionLabel(model: JsValue): string {
    ToJsString(Get(model, "modelCode")) + " - " + ToJsString(Get(model, "vehicleBrand"))
  }

  /** The selector's search: the option's label contains the typed text, ignoring ASCII case. */
  predicate FilterOption(input: string, optionText: string) {
    Contains(ToLowerAscii(optionText), ToLowerAscii(input))
  }

  /** Lower-casing either side first does not change which options are shown. */
  lemma FilterOptionIgnoresCase(input: string, optionText: string)
    ensures FilterOption(ToLowerAscii(input), optionText) <==> FilterOption(input, optionText)
    ensures FilterOption(input, ToLowerAscii(optionText)) <==> FilterOption(input, optionText)
  {
    ToLowerAsciiIdempotent(input);
    ToLowerAsciiIdempotent(optionText);
  }

  /** An empty search shows every option, and every label matches itself. */
  lemma FilterOptionEmptyAndSelf(optionText: string)
    ensures FilterOption("", optionText)
    ensures FilterOption(optionText, optionText)
  {
    assert OccursAt(ToLowerAscii(optionText), ToLowerAscii(""), 0);
    assert OccursAt(ToLowerAscii(optionText), ToLowerAscii(optionText), 0);
  }

  /** Typing a model code in lower case still finds that template. */
  lemma FilterFindsLowerCaseCode(model: JsValue)
    ensures FilterOption(ToLowerAscii(ToJsString(Get(model, "modelCode"))), OptionLabel(model))
  {
    var code := ToJsString(Get(model, "modelCode"));
    var optionText := OptionLabel(model);
    ToLowerAsciiIdempotent(code);
    assert ToLowerAscii(optionText)[0..|code|] == ToLowerAscii(code);
    assert OccursAt(ToLowerAscii(optionText), ToLowerAscii(ToLowerAscii(code)), 0);
  }

  // ---------------------------------------------------------------- template lookup

  /** The outcome of `allModels.find(m => m.modelCode === code)`. */
  datatype Lookup = Found(index: nat) | Missing | Throws(index: nat)

  /** Where the search stopped: the match, the element it could not read, or the end. */
  function StopAt(r: Lookup, n: nat): nat {
    match r
    case Found(i) => i
    case Throws(i) => i
    case Missing => n
  }

  /**
   * The first model from `from` on whose model code is strictly equal to
   * `code`; reading the code of a null or undefined element throws.
   */
  function FindTemplate(models: seq<JsValue>, code: JsValue, from: nat): (r: Lookup)
    requires from <= |models|
    ensures from <= StopAt(r, |models|) <= |models|
    ensures r.Found? ==> r.index < |models| && StrictEq(Get(models[r.index], "modelCode"), code)
    ensures r.Throws? ==> r.index < |models| && Nullish(models[r.index])
    ensures forall j :: from <= j < StopAt(r, |models|) ==>
      !Nullish(models[j]) && !StrictEq(Get(models[j], "modelCode"), code)
    decreases |models| - from
  {
    if from == |models| then Missing
    else if Nullish(models[from]) then Throws(from)
    else if StrictEq(Get(models[from], "modelCode"), code) then Found(from)
    else FindTemplate(models, code, from + 1)
  }

  /** The model's fields with `id` dropped, as the template copies them. */
  function TemplateData(model: JsValue): (r: Record)
    ensures "id" !in r
    ensures forall k :: k in r <==> k in Spread(model) && k != "id"
  {
    Spread(model) - {"id"}
  }

  const ImportSucceeded := "模板导入成功"
  const ImportFailed := "模板导入失败"

  // ---------------------------------------------------------------- the form

  const ModelFields: set<string> := {
    "modelCode", "vehicleBrand", "vehicleModel", "vin", "vsnCode", "vehicleColor", "chassisModel",
    "engineInfo", "fuelType", "displacement", "power", "emissionStandard", "outlineSize",
    "cargoBoxInnerSize", "steelSpringLeafCount", "tireCount", "tireSpec", "vehicleType", "track",
    "wheelLoad", "axleCount", "steeringType", "totalMass", "curbWeight", "ratedLoadMass",
    "loadMassUtilizationCoefficient", "quasiTractionTotalMass", "semiTrailerSaddleMaxMass",
    "cabSeatingCapacity", "ratedPassengerCapacity", "maxSpeed", "manufactureDate", "remark",
    "enterpriseStandard", "productionAddress"
  }

  const RequiredFields: set<string> := {
    "modelCode", "vehicleBrand", "fuelType", "emissionStandard", "outlineSize", "track",
    "steeringType", "enterpriseStandard"
  }

  /** Every rule of the modal passes: the required fields are filled and the chassis model is `[A-Z0-9]+`. */
  predicate RulesPass(form: Record) {
    && (forall k :: k in RequiredFields ==> Forms.RequiredRule(Field(form, k)))
    && ParameterList.ChassisModelOk(Field(form, "chassisModel"))
  }

  class ModelViewForm {
    /** The form's field values. */
    var form: Record
    /** The values handed to the page's `onSubmit`, in order. */
    var submitted: seq<Record>
    var notices: seq<string>

    constructor ()
      ensures form == map[] && submitted == [] && notices == []
    {
      form := map[];
      submitted := [];
      notices := [];
    }

    /**
     * The effect run when the modal's props change: opened for an edit or a
     * view it shows the record, opened for an add it starts empty.
     */
    method Sync(open: bool, mode: string, record: JsValue)
      modifies this
      ensures !open ==> form == old(form)
      ensures open && (mode == "edit" || mode == "view") ==>
        && form == old(form) + Spread(record)
        && forall k :: k in Spread(record) ==> Field(form, k) == Get(record, k)
      ensures open && mode != "edit" && mode != "view" ==> forall k :: Field(form, k) == Undefined
      ensures open && mode != "edit" && mode != "view" ==> form == map[]
      ensures submitted == old(submitted) && notices == old(notices)
    {
      if open {
        if mode == "edit" || mode == "view" {
          form := form + Spread(record);
        } else {
          form := map[];
        }
      }
    }

    /**
     * The template selector, offered only when adding with models to copy,
     * changed: a cleared choice resets the form; a chosen code copies the
     * first model with that code, without its `id`.
     */
    method TemplateImport(mode: string, code: JsValue, models: seq<JsValue>)
      requires ShowTemplateSelector(mode, models)
      modifies this
      ensures !Truthy(code) ==> form == map[] && notices == old(notices)
      ensures Truthy(code) ==> match FindTemplate(models, code, 0)
        case Found(i) =>
          && form == old(form) + TemplateData(models[i])
          && Field(form, "modelCode") == code
          && Field(form, "id") == Field(old(form), "id")
          && notices == old(notices) + [ImportSucceeded]
        case Missing => form == old(form) && notices == old(notices)
        case Throws(_) => form == old(form) && notices == old(notices) + [ImportFailed]
      ensures submitted == old(submitted)
    {
      if !Truthy(code) {
        form := map[];
        return;
      }
      match FindTemplate(models, code, 0)
      case Found(i) =>
        form := form + TemplateData(models[i]);
        notices := notices + [ImportSucceeded];
      case Missing =>
      case Throws(_) =>
        notices := notices + [ImportFailed];
    }

    /** The operator types into a field; in view mode every input is disabled. */
    method SetField(mode: string, name: string, value: string)
      requires name in ModelFields
      modifies this
      ensures form == if IsReadOnly(mode) then old(form) else old(form)[name := Str(value)]
      ensures submitted == old(submitted) && notices == old(notices)
    {
      if !IsReadOnly(mode) {
        form := form[name := Str(value)];
      }
    }

    /** "确定" (or "关闭" in view mode): the form's values go to the page when every rule passes. */
    method HandleOk()
      modifies this
      ensures RulesPass(form) ==> submitted == old(submitted) + [Forms.FieldsValue(form, ModelFields)]
      ensures !RulesPass(form) ==> submitted == old(submitted)
      ensures form == old(form) && notices == old(notices)
    {
      if RulesPass(form) {
        submitted := submitted + [Forms.FieldsValue(form, ModelFields)];
      }
    }
  }

  /** What reaches the page holds every field of the modal and passes its rules. */
  lemma SubmittedValuesPassRules(form: Record)
    requires RulesPass(form)
    ensures var v := Forms.FieldsValue(form, ModelFields);
      && v.Keys == ModelFields
      && (forall k :: k in RequiredFields ==> Forms.RequiredRule(v[k]))
      && ParameterList.ChassisModelOk(v["chassisModel"])
  {
    var v := Forms.FieldsValue(form, ModelFields);
    forall k | k in RequiredFields ensures Forms.RequiredRule(v[k]) {
      assert v[k] == Field(form, k);
    }
  }
}
