/**
 * The normal certificate print page ("合格证打印"): scan VIN, VSN and engine
 * number, have the backend check them, preview, print, and optionally
 * reprint the current vehicle. Steps: 0 scan, 1 check, 2 preview, 3 result.
 */
module PrintPage {
  import opened Common
  import opened Js
  import opened Text
  import Forms
  import Backend
  import Identifiers
  import Constants

  /** The backend calls this page makes, with what each is sent. */
  datatype Request =
    | ValidateVehicle(body: Record)
    | GetPrintPreview(params: Record)
    | NormalPrint(body: Record)
    | ReprintCertificate(body: Record)

  const FormFields: set<string> := {"vin", "vsn", "engineNo"}

  /** The VIN box: required, VIN_LENGTH long, and `validateVIN` when non-empty. */
  predicate VinFieldOk(v: JsValue) {
    && Forms.RequiredRule(v)
    && Forms.LenRule(v, Constants.VinLength)
    && !(Truthy(v) && !Identifiers.ValidateVin(v))
  }

  /** The VSN box: required, VSN_LENGTH long, and `validateVSN` when non-empty. */
  predicate VsnFieldOk(v: JsValue) {
    && Forms.RequiredRule(v)
    && Forms.LenRule(v, Constants.VsnLength)
    && !(Truthy(v) && !Identifiers.ValidateVsn(v))
  }

  /** The whole scan form passes, so `onFinish` runs. */
  predicate FormValid(form: Record) {
    VinFieldOk(Field(form, "vin")) && VsnFieldOk(Field(form, "vsn")) && Forms.RequiredRule(Field(form, "engineNo"))
  }

  /**
   * The VIN box accepts exactly the 17-character texts over the VIN
   * alphabet, and anything it accepts is a string and a valid VIN.
   */
  lemma VinFieldIff(s: string, v: JsValue)
    ensures VinFieldOk(Str(s)) <==> |s| == 17 && forall i :: 0 <= i < |s| ==> Identifiers.IsVinChar(s[i])
    ensures VinFieldOk(v) ==> v.Str? && Identifiers.ValidateVin(v)
  {
    Identifiers.ValidateVinIff(Str(s));
  }

  /**
   * The VSN box accepts exactly the 13-character texts over A-Z and 0-9,
   * and anything it accepts is a string and a valid VSN.
   */
  lemma VsnFieldIff(s: string, v: JsValue)
    ensures VsnFieldOk(Str(s)) <==> |s| == 13 && forall i :: 0 <= i < |s| ==> IsAsciiUpper(s[i]) || IsAsciiDigit(s[i])
    ensures VsnFieldOk(v) ==> v.Str? && Identifiers.ValidateVsn(v)
  {
    Identifiers.ValidateVsnIff(Str(s));
  }

  /** The print request: the form's values with the preview data as `parameters`. */
  function PrintRequest(values: Record, preview: JsValue): (body: Record)
    ensures body.Keys == values.Keys + {"parameters"}
    ensures body["parameters"] == preview
    ensures forall k :: k in values && k != "parameters" ==> body[k] == values[k]
  {
    values["parameters" := preview]
  }

  /**
   * `vinForm.getFieldsValue()` at `step`: the scan form is rendered only at
   * step 0, so at any later step none of its fields is mounted and the read
   * is empty, although the store still holds the scan.
   */
  function MountedValues(store: Record, step: nat): (r: Record)
    ensures step == 0 ==> r.Keys == FormFields && (FormValid(r) <==> FormValid(store))
    ensures step != 0 ==> r == map[]
  {
    Forms.FieldsValue(store, if step == 0 then FormFields else {})
  }

  /**
   * The scan as the store keeps it, read by naming its three fields
   * (`getFieldsValue(["vin", "vsn", "engineNo"])`), which does not depend
   * on what is mounted: the values the later steps evidently mean to send.
   */
  function ScannedValues(store: Record): (r: Record)
    ensures r.Keys == FormFields
    ensures FormValid(r) <==> FormValid(store)
    ensures r == MountedValues(store, 0)
  {
    Forms.FieldsValue(store, FormFields)
  }

  /**
   * As written, after the validation step every request loses the scan: the
   * preview is asked for with no parameters, the print carries only the
   * preview data, and the reprint's VIN is undefined, however valid the scan
   * the validation accepted.
   */
  lemma LaterRequestsLoseTheScan(store: Record, step: nat, preview: JsValue)
    requires step != 0 && FormValid(store)
    ensures GetPrintPreview(MountedValues(store, step)) == GetPrintPreview(map[])
    ensures NormalPrint(PrintRequest(MountedValues(store, step), preview)) == NormalPrint(map["parameters" := preview])
    ensures Field(MountedValues(store, step), "vin") == Undefined
    ensures Identifiers.ValidateVin(Field(ScannedValues(store), "vin"))
    ensures MountedValues(store, step) != ScannedValues(store)
  {
    VinFieldIff("", Field(store, "vin"));
    assert "vin" in ScannedValues(store);
  }

  /**
   * The requests as intended, built from the stored scan: the preview and
   * the print carry the checked VIN, VSN and engine number, and the reprint
   * carries the checked VIN, each of which passes its validator.
   */
  lemma IntendedRequestsCarryTheScan(store: Record, preview: JsValue)
    requires FormValid(store)
    ensures var v := ScannedValues(store);
      && Identifiers.ValidateVin(v["vin"]) && Identifiers.ValidateVsn(v["vsn"]) && Forms.RequiredRule(v["engineNo"])
      && PrintRequest(v, preview).Keys == FormFields + {"parameters"}
      && (forall k :: k in FormFields ==> PrintRequest(v, preview)[k] == v[k] == Field(store, k))
      && PrintRequest(v, preview)["parameters"] == preview
  {
    var v := ScannedValues(store);
    VinFieldIff("", v["vin"]);
    VsnFieldIff("", v["vsn"]);
  }

  /** Every check request carried values that passed the scan form's rules. */
  ghost predicate ChecksWereValid(log: seq<Request>) {
    forall i :: 0 <= i < |log| && log[i].ValidateVehicle? ==> FormValid(log[i].body)
  }

  lemma ChecksWereValidAppend(log: seq<Request>, r: Request)
    requires ChecksWereValid(log)
    requires r.ValidateVehicle? ==> FormValid(r.body)
    ensures ChecksWereValid(log + [r])
  {
    forall i | 0 <= i < |log + [r]| && (log + [r])[i].ValidateVehicle?
      ensures FormValid((log + [r])[i].body)
    {
      if i < |log| {
        assert (log + [r])[i] == log[i];
      }
    }
  }

  class Page {
    var currentStep: nat
    var loading: bool
    /** The scan form's store: it keeps the scan while the form is not rendered. */
    var vinForm: Record
    var validateResult: JsValue
    var previewData: JsValue
    var printResult: JsValue
    /** Every backend call made, in order. */
    var sent: seq<Request>
    /** Every success notice shown, in order. */
    var notices: seq<string>
    /** The scan the backend last accepted. */
    ghost var checked: Record

    /**
     * The page is at one of its four steps with no call in flight, every
     * check request passed the scan form's rules, and past step 0 the store
     * still holds exactly the scan the backend accepted, which was one of
     * those check requests.
     */
    ghost predicate Valid()
      reads this
    {
      && currentStep <= 3 && !loading && ChecksWereValid(sent)
      && (currentStep != 0 ==> ScannedValues(vinForm) == checked && ValidateVehicle(checked) in sent)
    }

    constructor ()
      ensures Valid()
      ensures currentStep == 0 && vinForm == map[]
      ensures validateResult == Null && previewData == Null && printResult == Null
      ensures sent == [] && notices == []
    {
      currentStep := 0;
      loading := false;
      vinForm := map[];
      validateResult := Null;
      previewData := Null;
      printResult := Null;
      sent := [];
      notices := [];
      checked := map[];
    }

    /** The operator types or scans into one of the three boxes, which exist only at step 0. */
    method EnterField(name: string, text: string)
      requires Valid() && currentStep == 0 && name in FormFields
      modifies this
      ensures Valid()
      ensures vinForm == old(vinForm)[name := Str(text)]
      ensures currentStep == old(currentStep) && validateResult == old(validateResult)
      ensures previewData == old(previewData) && printResult == old(printResult)
      ensures sent == old(sent) && notices == old(notices)
    {
      vinForm := vinForm[name := Str(text)];
    }

    /**
     * "校验": a form that passes its rules hands its values to the validation request;
     * success stores the result and moves to step 1.
     */
    method SubmitVinForm(reply: Reply<JsValue>)
      requires Valid() && currentStep == 0
      modifies this
      ensures Valid()
      ensures vinForm == old(vinForm) && previewData == old(previewData) && printResult == old(printResult)
      ensures !FormValid(old(vinForm)) ==>
        currentStep == old(currentStep) && validateResult == old(validateResult)
        && sent == old(sent) && notices == old(notices)
      ensures FormValid(old(vinForm)) ==>
        && sent == old(sent) + [ValidateVehicle(MountedValues(old(vinForm), 0))]
        && match Backend.Payload(reply)
           case None =>
             currentStep == old(currentStep) && validateResult == old(validateResult) && notices == old(notices)
           case Some(d) =>
             currentStep == 1 && validateResult == d && notices == old(notices) + ["校验成功"]
               && checked == ScannedValues(vinForm)
    {
      if !FormValid(vinForm) {
        return;
      }
      var values := MountedValues(vinForm, 0);
      ChecksWereValidAppend(sent, ValidateVehicle(values));
      sent := sent + [ValidateVehicle(values)];
      match Backend.Payload(reply)
      case None =>
      case Some(d) =>
        AcceptScan(d);
    }

    /** The validation passed: its result is kept, the scan recorded as accepted and step 1 opens. */
    method AcceptScan(d: JsValue)
      requires Valid() && ValidateVehicle(ScannedValues(vinForm)) in sent
      modifies this
      ensures Valid()
      ensures currentStep == 1 && validateResult == d && notices == old(notices) + ["校验成功"]
      ensures checked == ScannedValues(vinForm)
      ensures vinForm == old(vinForm) && previewData == old(previewData) && printResult == old(printResult)
      ensures sent == old(sent)
    {
      validateResult := d;
      currentStep := 1;
      notices := notices + ["校验成功"];
      checked := ScannedValues(vinForm);
    }

    /**
     * "确认并继续" at step 1: the preview is requested with what
     * `getFieldsValue()` reads there; success moves to step 2.
     */
    method ConfirmValidation(reply: Reply<JsValue>)
      requires Valid() && currentStep == 1 && Truthy(validateResult)
      modifies this
      ensures Valid()
      ensures sent == old(sent) + [GetPrintPreview(MountedValues(old(vinForm), old(currentStep)))]
      ensures vinForm == old(vinForm) && validateResult == old(validateResult) && printResult == old(printResult)
      ensures notices == old(notices) && checked == old(checked)
      ensures match Backend.Payload(reply)
        case None => currentStep == old(currentStep) && previewData == old(previewData)
        case Some(d) => currentStep == 2 && previewData == d
    {
      var values := MountedValues(vinForm, currentStep);
      ChecksWereValidAppend(sent, GetPrintPreview(values));
      sent := sent + [GetPrintPreview(values)];
      match Backend.Payload(reply)
      case None =>
      case Some(d) =>
        previewData := d;
        currentStep := 2;
    }

    /**
     * "执行打印" at step 2: what `getFieldsValue()` reads there, with the
     * preview as parameters; success moves to step 3.
     */
    method Print(reply: Reply<JsValue>)
      requires Valid() && currentStep == 2 && Truthy(previewData)
      modifies this
      ensures Valid()
      ensures sent == old(sent) + [NormalPrint(PrintRequest(MountedValues(old(vinForm), old(currentStep)), old(previewData)))]
      ensures vinForm == old(vinForm) && validateResult == old(validateResult) && previewData == old(previewData)
      ensures checked == old(checked)
      ensures match Backend.Payload(reply)
        case None => currentStep == old(currentStep) && printResult == old(printResult) && notices == old(notices)
        case Some(d) => currentStep == 3 && printResult == d && notices == old(notices) + ["打印成功"]
    {
      var body := PrintRequest(MountedValues(vinForm, currentStep), previewData);
      ChecksWereValidAppend(sent, NormalPrint(body));
      sent := sent + [NormalPrint(body)];
      match Backend.Payload(reply)
      case None =>
      case Some(d) =>
        printResult := d;
        currentStep := 3;
        notices := notices + ["打印成功"];
    }

    /**
     * "重打当前车辆" at step 3: send only the `vin` that `getFieldsValue()`
     * reads there and replace the print result; the step never changes.
     * The notice comes before the result is read.
     */
    method Reprint(reply: Reply<JsValue>)
      requires Valid() && currentStep == 3 && Truthy(printResult)
      modifies this
      ensures Valid()
      ensures sent == old(sent) + [ReprintCertificate(map["vin" := Field(MountedValues(old(vinForm), old(currentStep)), "vin")])]
      ensures currentStep == old(currentStep)
      ensures vinForm == old(vinForm) && validateResult == old(validateResult) && previewData == old(previewData)
      ensures checked == old(checked)
      ensures notices == old(notices) + (if reply.Ok? then ["重打成功"] else [])
      ensures printResult == if Backend.Payload(reply).Some? then Backend.Payload(reply).value else old(printResult)
    {
      var body := map["vin" := Field(MountedValues(vinForm, currentStep), "vin")];
      ChecksWereValidAppend(sent, ReprintCertificate(body));
      sent := sent + [ReprintCertificate(body)];
      if reply.Ok? {
        notices := notices + ["重打成功"];
      }
      match Backend.Payload(reply)
      case None =>
      case Some(d) =>
        printResult := d;
    }

    /**
     * "重置" / "打印下一辆": back to step 0 with every data slot cleared; the
     * form has no initial values, so its store is emptied.
     */
    method HandleReset()
      requires Valid() && (currentStep == 0 || (currentStep == 3 && Truthy(printResult)))
      modifies this
      ensures Valid()
      ensures currentStep == 0 && vinForm == map[]
      ensures validateResult == Null && previewData == Null && printResult == Null
      ensures sent == old(sent) && notices == old(notices)
    {
      currentStep := 0;
      vinForm := map[];
      validateResult := Null;
      previewData := Null;
      printResult := Null;
    }

    /** "上一步" on the validation step: the scan form is shown again with its stored values. */
    method BackFromValidation()
      requires Valid() && currentStep == 1 && Truthy(validateResult)
      modifies this
      ensures Valid()
      ensures currentStep == 0
      ensures vinForm == old(vinForm) && validateResult == old(validateResult)
      ensures previewData == old(previewData) && printResult == old(printResult)
      ensures sent == old(sent) && notices == old(notices)
    {
      currentStep := 0;
    }

    /** "上一步" on the preview step. */
    method BackFromPreview()
      requires Valid() && currentStep == 2 && Truthy(previewData)
      modifies this
      ensures Valid()
      ensures currentStep == 1
      ensures vinForm == old(vinForm) && validateResult == old(validateResult)
      ensures previewData == old(previewData) && printResult == old(printResult)
      ensures sent == old(sent) && notices == old(notices) && checked == old(checked)
    {
      currentStep := 1;
    }
  }

  /**
   * Past the validation step the intended requests would carry exactly the scan
   * the backend accepted, while the requests as written carry none of it.
   */
  lemma PageHoldsTheCheckedScan(p: Page, preview: JsValue)
    requires p.Valid() && p.currentStep != 0
    ensures ScannedValues(p.vinForm) == p.checked && FormValid(p.checked)
    ensures Identifiers.ValidateVin(p.checked["vin"]) && Identifiers.ValidateVsn(p.checked["vsn"])
    ensures MountedValues(p.vinForm, p.currentStep) == map[]
  {
    var i :| 0 <= i < |p.sent| && p.sent[i] == ValidateVehicle(p.checked);
    assert FormValid(p.sent[i].body);
    IntendedRequestsCarryTheScan(p.vinForm, preview);
  }
}
