/**
 * The vehicle-parameter table ("参数表维护"): a paged, searchable list of
 * model parameters with a modal form to add, edit or copy one.
 */
module ParameterList {
  import opened Common
  import opened Js
  import opened Text
  import Forms
  import Backend
  import Identifiers

  // ---------------------------------------------------------------- form rules

  /**
   * The chassis-ID validator: a second-class chassis needs an ID, and a
   * non-empty ID must be exactly seven decimal digits.
   */
  predicate ChassisIdOk(category: JsValue, value: JsValue) {
    && !(StrictEq(category, Str("CHASSIS")) && !Truthy(value))
    && !(Truthy(value) && !Identifiers.MatchesRepeat(ToJsString(value), Identifiers.DigitClass, 7))
  }

  lemma ChassisIdIff(category: JsValue, s: string)
    ensures ChassisIdOk(category, Str(s)) <==>
      if s == "" then category != Str("CHASSIS")
      else |s| == 7 && forall i :: 0 <= i < |s| ==> IsAsciiDigit(s[i])
  {
    if s != "" {
      assert Truthy(Str(s)) && ToJsString(Str(s)) == s;
      Identifiers.MatchesRepeatIff(s, Identifiers.DigitClass, 7);
      forall i | 0 <= i < |s| { Identifiers.DigitClassIs(s[i]); }
    }
  }

  /** 车型代码: required and four long. */
  predicate ModelCodeOk(v: JsValue) {
    Forms.RequiredRule(v) && Forms.LenRule(v, 4)
  }

  /** The model code box accepts exactly the four-character strings; a number, boolean, array or object fails it. */
  lemma ModelCodeIff(v: JsValue)
    ensures ModelCodeOk(v) <==> v.Str? && |v.s| == 4
  {
  }

  /** 底盘型号: required and `/^[A-Z0-9]+$/`. */
  predicate ChassisModelOk(v: JsValue) {
    Forms.RequiredRule(v) && Forms.PatternRule(v, Identifiers.MatchesPlus(ToJsString(v), Identifiers.UpperAlnumClass))
  }

  lemma ChassisModelIff(s: string)
    ensures ChassisModelOk(Str(s)) <==> |s| >= 1 && forall i :: 0 <= i < |s| ==> IsAsciiUpper(s[i]) || IsAsciiDigit(s[i])
  {
    Identifiers.MatchesPlusIff(s, Identifiers.UpperAlnumClass);
    forall i | 0 <= i < |s| { Identifiers.UpperAlnumClassIs(s[i]); }
  }

  /** The fields whose only rule is `required`. */
  const RequiredFields: set<string> := {
    "vehicleBrand", "vehicleCategory", "fuelType", "emissionStandard", "steeringType",
    "wheelbase", "enterpriseStandard", "overallDimension", "axleLoad"
  }

  const FormFields: set<string> := RequiredFields + {"modelCode", "chassisModel", "cargoBoxDimension", "chassisId"}

  const SearchFields: set<string> := {"modelCode", "vehicleCategory"}

  /** The modal's rules all pass, so `validateFields` resolves. */
  predicate FormValid(form: Record) {
    && ModelCodeOk(Field(form, "modelCode"))
    && ChassisModelOk(Field(form, "chassisModel"))
    && (forall k :: k in RequiredFields ==> Forms.RequiredRule(Field(form, k)))
    && ChassisIdOk(Field(form, "vehicleCategory"), Field(form, "chassisId"))
  }

  // ---------------------------------------------------------------- list requests

  datatype Pagination = Pagination(current: int, pageSize: int, total: JsValue)

  const InitialPagination := Pagination(1, 10, Num(0))

  /** `{ page, pageSize, ...searchParams, ...params }` */
  function FetchRequest(p: Pagination, search: Record, params: Record): Record {
    map["page" := Num(p.current), "pageSize" := Num(p.pageSize)] + search + params
  }

  /** Explicit parameters win over the search filter, which wins over the pagination. */
  lemma FetchPrecedence(p: Pagination, search: Record, params: Record, k: string)
    ensures var r := FetchRequest(p, search, params);
      && r.Keys == {"page", "pageSize"} + search.Keys + params.Keys
      && (k in params ==> r[k] == params[k])
      && (k !in params && k in search ==> r[k] == search[k])
      && (k !in params && k !in search && k == "page" ==> r[k] == Num(p.current))
      && (k !in params && k !in search && k == "pageSize" ==> r[k] == Num(p.pageSize))
  {
  }

  /** The search request: the search form's values from page 1. */
  function SearchRequest(p: Pagination, oldSearch: Record, values: Record): Record {
    FetchRequest(p, oldSearch, values["page" := Num(1)])
  }

  /**
   * The search form always yields every one of its fields, so the filter
   * held before a search cannot leak into the search's request.
   */
  lemma SearchIgnoresOldFilter(p: Pagination, oldSearch: Record, values: Record)
    requires oldSearch.Keys <= values.Keys
    ensures SearchRequest(p, oldSearch, values) == FetchRequest(p, values, map["page" := Num(1)])
    ensures SearchRequest(p, oldSearch, values)["page"] == Num(1)
  {
    var a := SearchRequest(p, oldSearch, values);
    var b := FetchRequest(p, values, map["page" := Num(1)]);
    assert a.Keys == b.Keys;
    forall k | k in a.Keys ensures a[k] == b[k] {
    }
  }

  /**
   * The reset request as the page builds it: `fetchData({ page: 1 })` runs
   * in the same render as `setSearchParams({})`, so it still reads the
   * filter of the previous search.
   */
  function ResetRequestAsWritten(p: Pagination, oldSearch: Record): (r: Record)
    ensures "page" in r && r["page"] == Num(1)
    ensures forall k :: k in oldSearch && k != "page" ==> k in r && r[k] == oldSearch[k]
  {
    FetchRequest(p, oldSearch, map["page" := Num(1)])
  }

  /** After searching for model code "A001", the reset still asks for "A001" only. */
  lemma ResetKeepsOldFilter()
    ensures var r := ResetRequestAsWritten(InitialPagination, map["modelCode" := Str("A001")]);
      "modelCode" in r && r["modelCode"] == Str("A001")
  {
  }

  /** The reset request as intended: page 1 of the unfiltered list. */
  function ResetRequest(p: Pagination): (r: Record)
    ensures r == map["page" := Num(1), "pageSize" := Num(p.pageSize)]
  {
    FetchRequest(p, map[], map["page" := Num(1)])
  }

  lemma ResetRequestIsUnfiltered(p: Pagination, oldSearch: Record)
    ensures ResetRequest(p).Keys == {"page", "pageSize"}
    ensures ResetRequest(p)["page"] == Num(1) && ResetRequest(p)["pageSize"] == Num(p.pageSize)
    ensures oldSearch.Keys * {"page", "pageSize"} == {} ==>
      (ResetRequest(p) == ResetRequestAsWritten(p, oldSearch) <==> oldSearch == map[])
  {
    if oldSearch.Keys * {"page", "pageSize"} == {} && ResetRequest(p) == ResetRequestAsWritten(p, oldSearch) {
      assert ResetRequestAsWritten(p, oldSearch).Keys == {"page", "pageSize"} + oldSearch.Keys;
      assert oldSearch.Keys <= {"page", "pageSize"};
      assert oldSearch.Keys == oldSearch.Keys * {"page", "pageSize"};
    }
  }

  /** The rows and total a list reply supplies; None when reading them throws. */
  function ListResult(reply: Reply<JsValue>): (r: Option<(JsValue, JsValue)>)
    ensures r.Some? ==> Truthy(r.value.0)
    ensures r.Some? ==> Truthy(r.value.1) || r.value.1 == Num(0)
    ensures r.Some? <==> Backend.Payload(reply).Some? && !Nullish(Backend.Payload(reply).value)
  {
    match Backend.Payload(reply)
    case None => None
    case Some(d) =>
      if Nullish(d) then None
      else Some((Or(Get(d, "records"), Arr([])), Or(Get(d, "total"), Num(0))))
  }

  // ---------------------------------------------------------------- page

  datatype Request =
    | GetParameterList(params: Record)
    | GetParameterByModelCode(modelCode: JsValue)
    | CreateParameter(values: Record)
    | UpdateParameter(modelCode: JsValue, values: Record)

  const ModalTypes: set<string> := {"add", "edit", "copy"}

  const CopyTitle := "复制车型参数"

  /**
   * The title of a model-parameter modal: its own title for add and for
   * edit, and `otherTitle` for any other mode ("复制车型参数" here, the
   * view title in the parameter modal's own form).
   */
  function ModalTitle(modalType: string, otherTitle: string): (title: string)
    ensures modalType == "add" ==> title == "新增车型参数"
    ensures modalType == "edit" ==> title == "编辑车型参数"
    ensures modalType != "add" && modalType != "edit" ==> title == otherTitle
  {
    if modalType == "add" then "新增车型参数" else if modalType == "edit" then "编辑车型参数" else otherTitle
  }

  /** Whether the modal's submission creates a new model (add and copy) rather than updating one. */
  predicate Creates(modalType: string) {
    modalType == "add" || modalType == "copy"
  }

  /**
   * The save the modal's confirmation issues: none while a rule fails (or
   * when an edit has no row to key the update by), a creation in add and
   * copy mode, and otherwise an update of the row's model code.
   */
  function SaveRequest(form: Record, modalType: string, currentRecord: JsValue): (r: Option<Request>)
    ensures r.Some? <==> FormValid(form) && (Creates(modalType) || !Nullish(currentRecord))
    ensures r.Some? ==> (r.value.CreateParameter? <==> Creates(modalType))
    ensures r.Some? && r.value.UpdateParameter? ==> r.value.modelCode == Get(currentRecord, "modelCode")
  {
    if !FormValid(form) then None
    else if Creates(modalType) then Some(CreateParameter(Forms.FieldsValue(form, FormFields)))
    else if Nullish(currentRecord) then None
    else Some(UpdateParameter(Get(currentRecord, "modelCode"), Forms.FieldsValue(form, FormFields)))
  }

  /** A saved parameter set holds exactly the modal's fields, and each passes its rules. */
  lemma SavedValuesPassRules(form: Record, modalType: string, currentRecord: JsValue)
    requires SaveRequest(form, modalType, currentRecord).Some?
    ensures var v := SaveRequest(form, modalType, currentRecord).value.values;
      && v.Keys == FormFields
      && ModelCodeOk(v["modelCode"])
      && ChassisModelOk(v["chassisModel"])
      && (forall k :: k in RequiredFields ==> Forms.RequiredRule(v[k]))
      && ChassisIdOk(v["vehicleCategory"], v["chassisId"])
  {
    var v := SaveRequest(form, modalType, currentRecord).value.values;
    assert v == Forms.FieldsValue(form, FormFields);
    forall k | k in RequiredFields ensures Forms.RequiredRule(v[k]) {
      assert v[k] == Field(form, k);
    }
  }

  function SavedNotice(modalType: string): (notice: string)
    ensures Creates(modalType) ==> notice == "新增成功"
    ensures !Creates(modalType) ==> notice == "更新成功"
  {
    if Creates(modalType) then "新增成功" else "更新成功"
  }

  class Page {
    var loading: bool
    var dataSource: JsValue
    var pagination: Pagination
    var searchParams: Record
    var searchForm: Record
    var modalVisible: bool
    var modalType: string
    var currentRecord: JsValue
    /** The modal form's values. */
    var form: Record
    /** Every backend call made, in order. */
    var sent: seq<Request>
    var notices: seq<string>

    /** The table always receives rows, and the modal is in one of its three modes. */
    ghost predicate Valid()
      reads this
    {
      !loading && Truthy(dataSource) && modalType in ModalTypes
    }

    constructor ()
      ensures Valid()
      ensures dataSource == Arr([]) && pagination == InitialPagination && searchParams == map[]
      ensures searchForm == map[] && !modalVisible && modalType == "add" && currentRecord == Null
      ensures form == map[] && sent == [] && notices == []
    {
      loading := false;
      dataSource := Arr([]);
      pagination := InitialPagination;
      searchParams := map[];
      searchForm := map[];
      modalVisible := false;
      modalType := "add";
      currentRecord := Null;
      form := map[];
      sent := [];
      notices := [];
    }

    /** Sends one list request and takes its rows and total when they can be read. */
    method Fetch(params: Record, reply: Reply<JsValue>)
      requires Valid()
      modifies this
      ensures Valid()
      ensures sent == old(sent) + [GetParameterList(params)]
      ensures match ListResult(reply)
        case None => dataSource == old(dataSource) && pagination == old(pagination)
        case Some(r) => dataSource == r.0 && pagination == old(pagination).(total := r.1)
      ensures searchParams == old(searchParams) && searchForm == old(searchForm) && modalVisible == old(modalVisible)
      ensures modalType == old(modalType) && currentRecord == old(currentRecord) && form == old(form)
      ensures notices == old(notices)
    {
      sent := sent + [GetParameterList(params)];
      match ListResult(reply)
      case None =>
      case Some(r) =>
        dataSource := r.0;
        pagination := pagination.(total := r.1);
    }

    /** The first load when the page mounts. */
    method Mount(reply: Reply<JsValue>)
      requires Valid()
      modifies this
      ensures Valid()
      ensures sent == old(sent) + [GetParameterList(FetchRequest(old(pagination), old(searchParams), map[]))]
      ensures match ListResult(reply)
        case None => dataSource == old(dataSource) && pagination == old(pagination)
        case Some(r) => dataSource == r.0 && pagination == old(pagination).(total := r.1)
      ensures searchParams == old(searchParams) && searchForm == old(searchForm) && form == old(form)
      ensures modalVisible == old(modalVisible) && modalType == old(modalType) && currentRecord == old(currentRecord)
      ensures notices == old(notices)
    {
      Fetch(FetchRequest(pagination, searchParams, map[]), reply);
    }

    method EnterSearch(name: string, value: JsValue)
      requires Valid() && name in SearchFields
      modifies this
      ensures Valid()
      ensures searchForm == old(searchForm)[name := value]
      ensures searchParams == old(searchParams) && pagination == old(pagination) && dataSource == old(dataSource)
      ensures modalVisible == old(modalVisible) && modalType == old(modalType) && currentRecord == old(currentRecord)
      ensures form == old(form) && sent == old(sent) && notices == old(notices)
    {
      searchForm := searchForm[name := value];
    }

    /** "查询": the search form's values become the filter and page 1 is loaded. */
    method HandleSearch(reply: Reply<JsValue>)
      requires Valid()
      modifies this
      ensures Valid()
      ensures var values := Forms.FieldsValue(old(searchForm), SearchFields);
        && searchParams == values
        && sent == old(sent) + [GetParameterList(SearchRequest(old(pagination), old(searchParams), values))]
        && match ListResult(reply)
           case None => dataSource == old(dataSource) && pagination == old(pagination).(current := 1)
           case Some(r) => dataSource == r.0 && pagination == old(pagination).(current := 1, total := r.1)
      ensures searchForm == old(searchForm) && form == old(form) && modalVisible == old(modalVisible)
      ensures modalType == old(modalType) && currentRecord == old(currentRecord) && notices == old(notices)
    {
      var values := Forms.FieldsValue(searchForm, SearchFields);
      var request := SearchRequest(pagination, searchParams, values);
      searchParams := values;
      pagination := pagination.(current := 1);
      Fetch(request, reply);
    }

    /**
     * "重置": the filter is dropped and page 1 is loaded, with the request
     * built in the same render and so still carrying the dropped filter.
     */
    method HandleReset(reply: Reply<JsValue>)
      requires Valid()
      modifies this
      ensures Valid()
      ensures searchParams == map[]
      ensures sent == old(sent) + [GetParameterList(ResetRequestAsWritten(old(pagination), old(searchParams)))]
      ensures match ListResult(reply)
        case None => dataSource == old(dataSource) && pagination == old(pagination).(current := 1)
        case Some(r) => dataSource == r.0 && pagination == old(pagination).(current := 1, total := r.1)
      ensures searchForm == old(searchForm) && form == old(form) && modalVisible == old(modalVisible)
      ensures modalType == old(modalType) && currentRecord == old(currentRecord) && notices == old(notices)
    {
      var request := ResetRequestAsWritten(pagination, searchParams);
      searchParams := map[];
      pagination := pagination.(current := 1);
      Fetch(request, reply);
    }

    /** The table's pager: the new page and size are kept and loaded with the current filter. */
    method HandleTableChange(current: int, pageSize: int, reply: Reply<JsValue>)
      requires Valid()
      modifies this
      ensures Valid()
      ensures sent == old(sent) + [GetParameterList(FetchRequest(old(pagination), old(searchParams),
                                     map["page" := Num(current), "pageSize" := Num(pageSize)]))]
      ensures match ListResult(reply)
        case None => dataSource == old(dataSource) && pagination == Pagination(current, pageSize, old(pagination).total)
        case Some(r) => dataSource == r.0 && pagination == Pagination(current, pageSize, r.1)
      ensures searchParams == old(searchParams) && searchForm == old(searchForm) && form == old(form)
      ensures modalVisible == old(modalVisible) && modalType == old(modalType) && currentRecord == old(currentRecord)
      ensures notices == old(notices)
    {
      var request := FetchRequest(pagination, searchParams, map["page" := Num(current), "pageSize" := Num(pageSize)]);
      pagination := Pagination(current, pageSize, pagination.total);
      Fetch(request, reply);
    }

    /** "新增车型": an empty form in add mode. */
    method HandleAdd()
      requires Valid()
      modifies this
      ensures Valid()
      ensures modalType == "add" && currentRecord == Null && form == map[] && modalVisible
      ensures dataSource == old(dataSource) && pagination == old(pagination) && searchParams == old(searchParams)
      ensures searchForm == old(searchForm) && sent == old(sent) && notices == old(notices)
    {
      modalType := "add";
      currentRecord := Null;
      form := map[];
      modalVisible := true;
    }

    /** "编辑": the stored parameters of the row are loaded into the form in edit mode. */
    method HandleEdit(record: JsValue, reply: Reply<JsValue>)
      requires Valid()
      modifies this
      ensures Valid()
      ensures sent == old(sent) + [GetParameterByModelCode(Get(record, "modelCode"))]
      ensures match Backend.Payload(reply)
        case None =>
          modalType == old(modalType) && currentRecord == old(currentRecord) && form == old(form)
          && modalVisible == old(modalVisible)
        case Some(d) =>
          modalType == "edit" && currentRecord == record && form == old(form) + Spread(d) && modalVisible
      ensures dataSource == old(dataSource) && pagination == old(pagination) && searchParams == old(searchParams)
      ensures searchForm == old(searchForm) && notices == old(notices)
    {
      sent := sent + [GetParameterByModelCode(Get(record, "modelCode"))];
      match Backend.Payload(reply)
      case None =>
      case Some(d) =>
        modalType := "edit";
        currentRecord := record;
        form := form + Spread(d);
        modalVisible := true;
    }

    /**
     * "复制": the row's stored parameters without their model code are loaded
     * in copy mode; the form's model code is left as it was, for the operator
     * to fill in.
     */
    method HandleCopy(record: JsValue, reply: Reply<JsValue>)
      requires Valid()
      modifies this
      ensures Valid()
      ensures sent == old(sent) + [GetParameterByModelCode(Get(record, "modelCode"))]
      ensures match Backend.Payload(reply)
        case None =>
          modalType == old(modalType) && currentRecord == old(currentRecord) && form == old(form)
          && modalVisible == old(modalVisible)
        case Some(d) =>
          && modalType == "copy" && currentRecord == record && modalVisible
          && form == old(form) + (Spread(d) - {"modelCode"})
          && Field(form, "modelCode") == Field(old(form), "modelCode")
      ensures dataSource == old(dataSource) && pagination == old(pagination) && searchParams == old(searchParams)
      ensures searchForm == old(searchForm) && notices == old(notices)
    {
      sent := sent + [GetParameterByModelCode(Get(record, "modelCode"))];
      match Backend.Payload(reply)
      case None =>
      case Some(d) =>
        modalType := "copy";
        currentRecord := record;
        form := form + (Spread(d) - {"modelCode"});
        modalVisible := true;
    }

    /** The operator fills a field of the modal; the model-code box is disabled in edit mode. */
    method SetField(name: string, value: string)
      requires Valid() && modalVisible && name in FormFields
      modifies this
      ensures Valid()
      ensures form == if modalType == "edit" && name == "modelCode" then old(form) else old(form)[name := Str(value)]
      ensures modalType == old(modalType) && currentRecord == old(currentRecord) && modalVisible == old(modalVisible)
      ensures dataSource == old(dataSource) && pagination == old(pagination) && sent == old(sent)
      ensures searchParams == old(searchParams) && searchForm == old(searchForm) && notices == old(notices)
    {
      if !(modalType == "edit" && name == "modelCode") {
        form := form[name := Str(value)];
      }
    }

    /**
     * "确定": nothing happens unless the save can be issued; on success the
     * modal closes and the list is reloaded with the current page and filter.
     */
    method HandleSubmit(persist: Reply<JsValue>, reply: Reply<JsValue>)
      requires Valid() && modalVisible
      modifies this
      ensures Valid()
      ensures form == old(form) && modalType == old(modalType) && currentRecord == old(currentRecord)
      ensures searchParams == old(searchParams) && searchForm == old(searchForm)
      ensures match SaveRequest(old(form), old(modalType), old(currentRecord))
        case None =>
          && sent == old(sent) && modalVisible == old(modalVisible) && notices == old(notices)
          && dataSource == old(dataSource) && pagination == old(pagination)
        case Some(save) =>
          if persist.Failed? then
            && sent == old(sent) + [save] && modalVisible == old(modalVisible) && notices == old(notices)
            && dataSource == old(dataSource) && pagination == old(pagination)
          else
            && sent == old(sent) + [save, GetParameterList(FetchRequest(old(pagination), old(searchParams), map[]))]
            && !modalVisible && notices == old(notices) + [SavedNotice(old(modalType))]
            && match ListResult(reply)
               case None => dataSource == old(dataSource) && pagination == old(pagination)
               case Some(r) => dataSource == r.0 && pagination == old(pagination).(total := r.1)
    {
      var r := SaveRequest(form, modalType, currentRecord);
      assert r == SaveRequest(old(form), old(modalType), old(currentRecord));
      if r.Some? {
        var save := r.value;
        sent := sent + [save];
        if persist.Ok? {
          CloseAndReload(SavedNotice(modalType), reply);
        }
      }
    }

    /** A save went through: it is reported, the modal closes and the list is reloaded. */
    method CloseAndReload(notice: string, reply: Reply<JsValue>)
      requires Valid()
      modifies this
      ensures Valid()
      ensures sent == old(sent) + [GetParameterList(FetchRequest(old(pagination), old(searchParams), map[]))]
      ensures match ListResult(reply)
        case None => dataSource == old(dataSource) && pagination == old(pagination)
        case Some(r) => dataSource == r.0 && pagination == old(pagination).(total := r.1)
      ensures !modalVisible && notices == old(notices) + [notice]
      ensures form == old(form) && modalType == old(modalType) && currentRecord == old(currentRecord)
      ensures searchParams == old(searchParams) && searchForm == old(searchForm)
    {
      notices := notices + [notice];
      modalVisible := false;
      Fetch(FetchRequest(pagination, searchParams, map[]), reply);
    }

    /** The modal's cancel. */
    method CloseModal()
      requires Valid()
      modifies this
      ensures Valid()
      ensures !modalVisible
      ensures form == old(form) && modalType == old(modalType) && currentRecord == old(currentRecord)
      ensures dataSource == old(dataSource) && pagination == old(pagination) && sent == old(sent)
      ensures searchParams == old(searchParams) && searchForm == old(searchForm) && notices == old(notices)
    {
      modalVisible := false;
    }
  }
}
