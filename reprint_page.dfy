/**
 * The certificate supplement page ("合格证补打"): look a vehicle up by VIN
 * (quality department only), save the edited parameters, issue a new
 * certificate number, preview, print, and record the operator's
 * confirmation. Steps: 0 search, 1 edit, 2 preview, 3 result.
 */
module ReprintPage {
  import opened Common
  import opened Js
  import Forms
  import Backend
  import CertificatePreview

  const QualityDepartment := "质量部"
  const PermissionDenied := "权限不足：只有质量部的操作员才可以执行查询"
  const LookupSucceeded := "查询成功"
  const ModifySucceeded := "修改成功"

  /** The role gate: `user?.operator_type === "质量部"`. */
  predicate IsQualityUser(user: JsValue) {
    Get(user, "operator_type") == Str(QualityDepartment)
  }

  /** The backend calls this page makes, with what each is sent. */
  datatype Request =
    | GetCertificateByVin(params: Record)
    | SupplementPrint(body: Record)
    | GetCertificatePrintReport(body: Record)

  /** The fields of the edit form, whose values `getFieldsValue()` returns. */
  const EditFields: set<string> := {
    "modelCode", "vehicleBrand", "vehicleModel", "vin", "vsnCode", "vehicleColor",
    "chassisModel", "engineInfo", "fuelType", "displacement", "power", "emissionStandard",
    "outlineSize", "cargoBoxInnerSize", "steelSpringLeafCount", "tireCount", "tireSpec",
    "vehicleType", "track", "wheelLoad", "axleCount", "steeringType", "totalMass",
    "curbWeight", "ratedLoadMass", "loadMassUtilizationCoefficient", "quasiTractionTotalMass",
    "semiTrailerSaddleMaxMass", "cabSeatingCapacity", "ratedPassengerCapacity", "maxSpeed",
    "manufactureDate", "remark", "enterpriseStandard", "productionAddress"
  }

  /** The certificate-number request built from the saved values. */
  function IssueRequest(values: Record): (body: Record)
    ensures body.Keys == {"vin", "engineNo", "printType"}
    ensures body["vin"] == Field(values, "vin") && body["engineNo"] == Field(values, "engineInfo")
    ensures body["printType"] == Str("supplement")
  {
    map["vin" := Field(values, "vin"), "engineNo" := Field(values, "engineInfo"), "printType" := Str("supplement")]
  }

  /** What one "确认修改" does: the calls made in order, the new certificate data if any, and whether the page advances. */
  datatype SupplementOutcome = SupplementOutcome(requests: seq<Request>, merged: Option<JsValue>, advances: bool)

  /**
   * `handleSupplementPrint` on the edit form's values and the three replies:
   * save, then (only on a truthy save result) issue a number, then re-read
   * the record; the first failed call stops the chain, and the new data
   * is built only when both the number and the re-read record can be read.
   */
  function Supplement(values: Record, persist: Reply<JsValue>, issue: Reply<JsValue>, refetch: Reply<JsValue>)
    : (o: SupplementOutcome)
    ensures 1 <= |o.requests| <= 3 && o.requests[0] == SupplementPrint(values)
    ensures |o.requests| >= 2 <==> persist.Ok? && Truthy(persist.data)
    ensures |o.requests| >= 2 ==> o.requests[1] == GetCertificatePrintReport(IssueRequest(values))
    ensures |o.requests| == 3 <==> persist.Ok? && Truthy(persist.data) && issue.Ok?
    ensures |o.requests| == 3 ==> o.requests[2] == GetCertificateByVin(map["vin" := Field(values, "vin")])
    /** The issued number is read only after the re-read, so a nullish number reply still lets the re-read go out. */
    ensures o.merged.Some? <==> |o.requests| == 3 && Backend.Payload(refetch).Some? && Backend.Payload(issue).Some?
    ensures o.merged.Some? ==>
              o.merged.value == Obj(Spread(Backend.Payload(refetch).value)["certificateNo" := Backend.Payload(issue).value])
    /** A failed call keeps the page on the edit step; a falsy save result skips issuing but still advances. */
    ensures o.advances <==> persist.Ok? && (!Truthy(persist.data) || o.merged.Some?)
  {
    var save := [SupplementPrint(values)];
    if persist.Failed? then SupplementOutcome(save, None, false)
    else if !Truthy(persist.data) then SupplementOutcome(save, None, true)
    else
      var issued := save + [GetCertificatePrintReport(IssueRequest(values))];
      if issue.Failed? then SupplementOutcome(issued, None, false)
      else
        var all := issued + [GetCertificateByVin(map["vin" := Field(values, "vin")])];
        match (Backend.Payload(refetch), Backend.Payload(issue))
        case (Some(current), Some(number)) =>
          SupplementOutcome(all, Some(Obj(Spread(current)["certificateNo" := number])), true)
        case _ => SupplementOutcome(all, None, false)
  }

  /** The certificate data after a complete supplement is the re-read record with the issued number in place. */
  lemma MergedCarriesIssuedNumber(values: Record, persist: Reply<JsValue>, issue: Reply<JsValue>, refetch: Reply<JsValue>)
    requires Supplement(values, persist, issue, refetch).merged.Some?
    ensures var m := Supplement(values, persist, issue, refetch).merged.value;
      && Get(m, "certificateNo") == Backend.Payload(issue).value
      && forall k :: k != "certificateNo" ==> Get(m, k) == Get(Backend.Payload(refetch).value, k)
  {
  }

  /** The preview at step 2 then prints the issued number in cell 1. */
  lemma PreviewShowsIssuedNumber(values: Record, persist: Reply<JsValue>, issue: Reply<JsValue>, refetch: Reply<JsValue>)
    requires Supplement(values, persist, issue, refetch).merged.Some?
    ensures var cells := CertificatePreview.Preview(Supplement(values, persist, issue, refetch).merged.value);
      cells.Some? && cells.value[0].text == ShowOrEmpty(Backend.Payload(issue).value)
  {
    var m := Supplement(values, persist, issue, refetch).merged.value;
    CertificatePreview.FirstCellIsCertificateNo(m);
  }

  /**
   * Every number request in a log directly follows a save, and is built from
   * exactly the values saved.
   */
  ghost predicate IssueFollowsSave(log: seq<Request>) {
    forall i :: 0 <= i < |log| && log[i].GetCertificatePrintReport? ==>
      i > 0 && log[i - 1].SupplementPrint? && log[i].body == IssueRequest(log[i - 1].body)
  }

  lemma IssueFollowsSaveAppend(a: seq<Request>, b: seq<Request>)
    requires IssueFollowsSave(a) && IssueFollowsSave(b)
    requires |b| > 0 ==> !b[0].GetCertificatePrintReport?
    ensures IssueFollowsSave(a + b)
  {
    forall i | 0 <= i < |a + b| && (a + b)[i].GetCertificatePrintReport?
      ensures i > 0 && (a + b)[i - 1].SupplementPrint? && (a + b)[i].body == IssueRequest((a + b)[i - 1].body)
    {
      if i >= |a| {
        assert (a + b)[i] == b[i - |a|];
        assert i - |a| > 0;
        assert (a + b)[i - 1] == b[i - 1 - |a|];
      }
    }
  }

  lemma SupplementRequestsFollowSave(values: Record, persist: Reply<JsValue>, issue: Reply<JsValue>, refetch: Reply<JsValue>)
    ensures IssueFollowsSave(Supplement(values, persist, issue, refetch).requests)
  {
  }

  /**
   * What the edit form shows for a record as intended: every field of the
   * form holds that record's value.
   */
  function IntendedEditValues(record: JsValue): (r: Record)
    ensures r.Keys == EditFields
    ensures forall k :: k in EditFields ==> r[k] == Get(record, k)
  {
    Forms.FieldsValue(Spread(record), EditFields)
  }

  /**
   * The edit form's fields after it mounts for `record`, as written: the
   * page relies on `initialValues`, which fill only what the store lacks.
   */
  function EditValuesAfterMount(store: Record, record: JsValue): (r: Record)
    ensures r.Keys == EditFields
    ensures forall k :: k in EditFields && k in store ==> r[k] == store[k]
    ensures forall k :: k in EditFields && k !in store ==> r[k] == Get(record, k)
  {
    Forms.FieldsValue(Forms.MountWithInitialValues(Spread(record), store), EditFields)
  }

  /** The first lookup into an empty store shows the record as intended. */
  lemma FirstLookupAsIntended(record: JsValue)
    ensures EditValuesAfterMount(map[], record) == IntendedEditValues(record)
  {
    assert Forms.MountWithInitialValues(Spread(record), map[]) == Spread(record);
  }

  /**
   * A later lookup keeps the earlier record's values: once record `a` was
   * shown, the store holds it (and "重置" puts exactly it back), so mounting
   * the form for record `b` shows `a`'s value in every field `a` has.
   */
  lemma LaterLookupShowsEarlierRecord(a: JsValue, b: JsValue)
    ensures var store := Forms.MountWithInitialValues(Spread(a), map[]);
      forall k :: k in EditFields && k in Spread(a) ==> EditValuesAfterMount(store, b)[k] == Get(a, k)
  {
  }

  /** Looking up vehicle B after vehicle A shows, and would save, A's VIN. */
  lemma LaterLookupCounterexample()
    ensures var a := Obj(map["vin" := Str("LFWADRJF011002346")]);
      var b := Obj(map["vin" := Str("LFWADRJF011002347")]);
      var store := Forms.MountWithInitialValues(Spread(a), map[]);
      && EditValuesAfterMount(store, b)["vin"] == Str("LFWADRJF011002346")
      && IntendedEditValues(b)["vin"] == Str("LFWADRJF011002347")
      && EditValuesAfterMount(store, b) != IntendedEditValues(b)
  {
    var a := Obj(map["vin" := Str("LFWADRJF011002346")]);
    var b := Obj(map["vin" := Str("LFWADRJF011002347")]);
    var store := Forms.MountWithInitialValues(Spread(a), map[]);
    assert "vin" in EditFields && "vin" in Spread(a);
    LaterLookupShowsEarlierRecord(a, b);
    assert EditValuesAfterMount(store, b)["vin"] == Get(a, "vin");
    assert IntendedEditValues(b)["vin"] == Get(b, "vin");
  }

  class Page {
    var currentStep: nat
    var loading: bool
    var searchForm: Record
    /** The edit form's store; it keeps its values while the form is not rendered. */
    var editForm: Record
    /** The `initialValues` the edit form last rendered with; `resetFields()` goes back to them. */
    var editInitial: Record
    var certificateData: JsValue
    var modifiedData: Record
    var printResult: JsValue
    /** Every backend call made, in order. */
    var sent: seq<Request>
    /** Every success or warning notice shown, in order. */
    var notices: seq<string>

    /**
     * The page is at one of its four steps with no call in flight, no
     * handler ever records modified fields, the result step always has a
     * print result to show, and every number request followed a save.
     */
    ghost predicate Valid()
      reads this
    {
      && currentStep <= 3
      && !loading
      && modifiedData == map[]
      && (currentStep == 3 ==> printResult.Obj?)
      && IssueFollowsSave(sent)
    }

    constructor ()
      ensures Valid()
      ensures currentStep == 0 && searchForm == map[] && editForm == map[] && editInitial == map[]
      ensures certificateData == Null && printResult == Null && sent == [] && notices == []
    {
      currentStep := 0;
      loading := false;
      searchForm := map[];
      editForm := map[];
      editInitial := map[];
      certificateData := Null;
      modifiedData := map[];
      printResult := Null;
      sent := [];
      notices := [];
    }

    /** The query string's `vin`, when present and non-empty, fills the search form. */
    method Prefill(vin: Option<string>)
      requires Valid()
      modifies this
      ensures Valid()
      ensures searchForm == if vin.Some? && vin.value != "" then old(searchForm)["vin" := Str(vin.value)] else old(searchForm)
      ensures currentStep == old(currentStep) && editForm == old(editForm) && editInitial == old(editInitial)
      ensures certificateData == old(certificateData)
      ensures printResult == old(printResult) && sent == old(sent) && notices == old(notices)
    {
      if vin.Some? && vin.value != "" {
        searchForm := searchForm["vin" := Str(vin.value)];
      }
    }

    /** The operator types into the VIN box; the upper-case styling does not change the value. */
    method EnterSearchVin(text: string)
      requires Valid() && currentStep == 0
      modifies this
      ensures Valid()
      ensures searchForm == old(searchForm)["vin" := Str(text)]
      ensures currentStep == old(currentStep) && editForm == old(editForm) && editInitial == old(editInitial)
      ensures certificateData == old(certificateData)
      ensures printResult == old(printResult) && sent == old(sent) && notices == old(notices)
    {
      searchForm := searchForm["vin" := Str(text)];
    }

    /**
     * "查询": the VIN is required; then only a quality-department operator may
     * look it up; a successful lookup stores the record and moves to step 1,
     * where the edit form mounts for it.
     */
    method SubmitSearch(user: JsValue, lookup: Reply<JsValue>)
      requires Valid() && currentStep == 0
      modifies this
      ensures Valid()
      ensures searchForm == old(searchForm) && printResult == old(printResult)
      ensures var vin := Field(old(searchForm), "vin");
        if !Forms.RequiredRule(vin) then
          currentStep == old(currentStep) && editForm == old(editForm) && editInitial == old(editInitial)
          && certificateData == old(certificateData) && sent == old(sent) && notices == old(notices)
        else if !IsQualityUser(user) then
          currentStep == old(currentStep) && editForm == old(editForm) && editInitial == old(editInitial)
          && certificateData == old(certificateData) && sent == old(sent) && notices == old(notices) + [PermissionDenied]
        else
          && sent == old(sent) + [GetCertificateByVin(map["vin" := vin])]
          && match Backend.Payload(lookup)
             case None =>
               currentStep == old(currentStep) && editForm == old(editForm) && editInitial == old(editInitial)
               && certificateData == old(certificateData) && notices == old(notices)
             case Some(d) =>
               currentStep == 1 && certificateData == d && notices == old(notices) + [LookupSucceeded]
               && (Truthy(d) ==> Forms.FieldsValue(editForm, EditFields) == EditValuesAfterMount(old(editForm), d))
    {
      var vin := Field(searchForm, "vin");
      if !Forms.RequiredRule(vin) {
        return;
      }
      if !IsQualityUser(user) {
        notices := notices + [PermissionDenied];
        return;
      }
      IssueFollowsSaveAppend(sent, [GetCertificateByVin(map["vin" := vin])]);
      sent := sent + [GetCertificateByVin(map["vin" := vin])];
      match Backend.Payload(lookup)
      case None =>
      case Some(d) =>
        ShowRecord(d);
    }

    /**
     * A record was found: it is kept and step 1 opens. A truthy record
     * renders the edit form, which mounts with the record as its initial
     * values; values already in the store win.
     */
    method ShowRecord(d: JsValue)
      requires Valid()
      modifies this
      ensures Valid()
      ensures currentStep == 1 && certificateData == d
      ensures Truthy(d) ==> editInitial == Spread(d) && editForm == Forms.MountWithInitialValues(Spread(d), old(editForm))
      ensures !Truthy(d) ==> editInitial == old(editInitial) && editForm == old(editForm)
      ensures Truthy(d) ==> Forms.FieldsValue(editForm, EditFields) == EditValuesAfterMount(old(editForm), d)
      ensures notices == old(notices) + [LookupSucceeded]
      ensures searchForm == old(searchForm) && printResult == old(printResult) && sent == old(sent)
    {
      certificateData := d;
      notices := notices + [LookupSucceeded];
      currentStep := 1;
      if Truthy(d) {
        MountEditForm();
      }
    }

    /** The edit form mounts for the current record: the record becomes its initial values, under the stored values. */
    method MountEditForm()
      requires Valid()
      modifies this
      ensures Valid()
      ensures editInitial == Spread(certificateData)
      ensures editForm == Forms.MountWithInitialValues(Spread(certificateData), old(editForm))
      ensures Forms.FieldsValue(editForm, EditFields) == EditValuesAfterMount(old(editForm), certificateData)
      ensures currentStep == old(currentStep) && searchForm == old(searchForm) && certificateData == old(certificateData)
      ensures printResult == old(printResult) && sent == old(sent) && notices == old(notices)
    {
      editInitial := Spread(certificateData);
      editForm := Forms.MountWithInitialValues(editInitial, editForm);
    }

    /** The operator edits a field of the edit form; the VIN box is disabled. */
    method EditField(name: string, text: string)
      requires Valid() && currentStep == 1 && Truthy(certificateData)
      requires name in EditFields && name != "vin"
      modifies this
      ensures Valid()
      ensures editForm == old(editForm)[name := Str(text)]
      ensures currentStep == old(currentStep) && searchForm == old(searchForm) && certificateData == old(certificateData)
      ensures editInitial == old(editInitial)
      ensures printResult == old(printResult) && sent == old(sent) && notices == old(notices)
    {
      editForm := editForm[name := Str(text)];
    }

    /**
     * "确认修改": the edit form's values are sent as they stand (its rules
     * are not checked first), followed by the number and re-read calls.
     */
    method HandleSupplementPrint(persist: Reply<JsValue>, issue: Reply<JsValue>, refetch: Reply<JsValue>)
      requires Valid() && currentStep == 1 && Truthy(certificateData)
      modifies this
      ensures Valid()
      ensures var o := Supplement(Forms.FieldsValue(old(editForm), EditFields), persist, issue, refetch);
        && sent == old(sent) + o.requests
        && certificateData == (if o.merged.Some? then o.merged.value else old(certificateData))
        && currentStep == (if o.advances then 2 else 1)
        && notices == old(notices) + (if o.advances then [ModifySucceeded] else [])
      ensures searchForm == old(searchForm) && editForm == old(editForm) && editInitial == old(editInitial)
      ensures printResult == old(printResult)
    {
      var values := Forms.FieldsValue(editForm, EditFields);
      var o := Supplement(values, persist, issue, refetch);
      SupplementRequestsFollowSave(values, persist, issue, refetch);
      ApplySupplement(o);
    }

    /** The page takes in what one supplement did: its requests, its new data and whether it advances. */
    method ApplySupplement(o: SupplementOutcome)
      requires Valid() && currentStep == 1
      requires IssueFollowsSave(o.requests) && (|o.requests| > 0 ==> !o.requests[0].GetCertificatePrintReport?)
      modifies this
      ensures Valid()
      ensures sent == old(sent) + o.requests
      ensures certificateData == (if o.merged.Some? then o.merged.value else old(certificateData))
      ensures currentStep == (if o.advances then 2 else 1)
      ensures notices == old(notices) + (if o.advances then [ModifySucceeded] else [])
      ensures searchForm == old(searchForm) && editForm == old(editForm) && editInitial == old(editInitial)
      ensures printResult == old(printResult)
    {
      IssueFollowsSaveAppend(sent, o.requests);
      sent := sent + o.requests;
      if o.merged.Some? {
        certificateData := o.merged.value;
      }
      if o.advances {
        currentStep := 2;
        notices := notices + [ModifySucceeded];
      }
    }

    /**
     * "执行打印" and the confirmation after the print dialog: only a
     * confirmed print reaches step 3, recording the certificate data with
     * the time and the operator's name. No backend call is made.
     */
    method HandlePrint(confirmed: bool, user: JsValue, now: string)
      requires Valid() && currentStep == 2 && Truthy(certificateData)
      modifies this
      ensures Valid()
      ensures currentStep == 3 <==> confirmed
      ensures confirmed ==>
        printResult == Obj(Spread(old(certificateData))["reprintTime" := Str(now)]["operatorName" := Get(user, "username")])
      ensures !confirmed ==> currentStep == old(currentStep) && printResult == old(printResult)
      ensures searchForm == old(searchForm) && editForm == old(editForm) && editInitial == old(editInitial)
      ensures certificateData == old(certificateData)
      ensures sent == old(sent) && notices == old(notices)
    {
      if confirmed {
        printResult := Obj(Spread(certificateData)["reprintTime" := Str(now)]["operatorName" := Get(user, "username")]);
        currentStep := 3;
      }
    }

    /**
     * "重置": back to step 0 with every data slot cleared. The search form
     * has no initial values and is emptied; the edit form goes back to the
     * initial values it last rendered with, the record shown before.
     */
    method HandleReset()
      requires Valid() && currentStep == 0
      modifies this
      ensures Valid()
      ensures currentStep == 0 && searchForm == map[] && editForm == old(editInitial) && editInitial == old(editInitial)
      ensures certificateData == Null && modifiedData == map[] && printResult == Null
      ensures sent == old(sent) && notices == old(notices)
    {
      currentStep := 0;
      searchForm := map[];
      editForm := editInitial;
      certificateData := Null;
      modifiedData := map[];
      printResult := Null;
    }

    /** "上一步" on the edit step: the edit form unmounts and its store is kept. */
    method BackFromEdit()
      requires Valid() && currentStep == 1 && Truthy(certificateData)
      modifies this
      ensures Valid()
      ensures currentStep == 0
      ensures searchForm == old(searchForm) && editForm == old(editForm) && editInitial == old(editInitial)
      ensures certificateData == old(certificateData)
      ensures printResult == old(printResult) && sent == old(sent) && notices == old(notices)
    {
      currentStep := 0;
    }

    /** "返回修改" on the preview step: the edit form mounts again, now for the merged record. */
    method BackFromPreview()
      requires Valid() && currentStep == 2 && Truthy(certificateData)
      modifies this
      ensures Valid()
      ensures currentStep == 1
      ensures editInitial == Spread(old(certificateData))
      ensures editForm == Forms.MountWithInitialValues(Spread(old(certificateData)), old(editForm))
      ensures searchForm == old(searchForm) && certificateData == old(certificateData)
      ensures printResult == old(printResult) && sent == old(sent) && notices == old(notices)
    {
      MountEditForm();
      currentStep := 1;
    }
  }
}
