/**
 * The statistics page ("统计报表"): five report tabs, each a small search
 * form and either a table or a count, and the cell renderers that turn
 * report rows into display text.
 */
module Reports {
  import opened Common
  import opened Js
  import opened Text
  import Forms
  import Constants
  import Backend

  // ---------------------------------------------------------------- cells

  const TypeMarker := "类型："
  const CertMarker := "证号："

  /** `desc.split("类型：")[1]` for a description that holds the marker. */
  function LegacyStatus(desc: string): (status: string)
    requires Contains(desc, TypeMarker)
    ensures !Contains(status, TypeMarker)
  {
    SplitContains(desc, TypeMarker);
    SplitPiecesAreFree(desc, TypeMarker);
    Split(desc, TypeMarker)[1]
  }

  /**
   * "打印状态": legacy rows carry the status in `operateDesc` after the first
   * "类型："; otherwise the print type's display name, or the raw value.
   */
  function PrintStatusCell(value: JsValue, record: JsValue): (r: JsValue)
    ensures Get(record, "operateDesc").Str? && Contains(Get(record, "operateDesc").s, TypeMarker) ==>
      r.Str? && !Contains(r.s, TypeMarker)
  {
    var desc := Get(record, "operateDesc");
    if Truthy(desc) && desc.Str? && Contains(desc.s, TypeMarker) then
      Str(LegacyStatus(desc.s))
    else if ToJsString(value) in Constants.PrintTypeNames then
      Str(Constants.PrintTypeNames[ToJsString(value)])
    else
      value
  }

  /** With the marker present, the status is the text between its first and second occurrence, or to the end. */
  lemma PrintStatusFromDescription(value: JsValue, record: JsValue, i: nat)
    requires Get(record, "operateDesc").Str? && IndexOf(Get(record, "operateDesc").s, TypeMarker) == Some(i)
    ensures var s := Get(record, "operateDesc").s;
      && i + |TypeMarker| <= |s|
      && var rest := s[i + |TypeMarker|..];
         PrintStatusCell(value, record) == Str(match IndexOf(rest, TypeMarker) case None => rest case Some(j) => rest[..j])
  {
    var s := Get(record, "operateDesc").s;
    IndexOfFirst(s, TypeMarker);
    assert OccursAt(s, TypeMarker, i);
    assert Contains(s, TypeMarker) && s != "";
    assert PrintStatusCell(value, record) == Str(LegacyStatus(s));
    SecondPiece(s, TypeMarker, i);
  }

  /** Without the marker, a known print type shows its name and anything else shows as it is. */
  lemma PrintStatusFallback(value: JsValue, record: JsValue)
    requires !(Get(record, "operateDesc").Str? && Contains(Get(record, "operateDesc").s, TypeMarker))
    ensures value == Str("NORMAL") ==> PrintStatusCell(value, record) == Str("正常打印")
    ensures value == Str("REPRINT") ==> PrintStatusCell(value, record) == Str("重打")
    ensures value == Str("SUPPLEMENT") ==> PrintStatusCell(value, record) == Str("补打")
    ensures ToJsString(value) !in Constants.PrintTypeNames ==> PrintStatusCell(value, record) == value
  {
  }

  /** `证号：` at `i` followed by at least one ASCII letter or digit. */
  predicate CertMatchAt(s: string, i: nat) {
    OccursAt(s, CertMarker, i) && i + |CertMarker| < |s| && IsAsciiAlnum(s[i + |CertMarker|])
  }

  /** The leftmost position at or after `from` where the certificate pattern matches. */
  function FirstCertMatch(s: string, from: nat): (r: Option<nat>)
    requires from <= |s|
    ensures r.Some? ==> from <= r.value < |s| && CertMatchAt(s, r.value)
    ensures r.Some? ==> forall j: nat :: from <= j < r.value ==> !CertMatchAt(s, j)
    ensures r.None? <==> forall j: nat :: from <= j ==> !CertMatchAt(s, j)
    decreases |s| - from
  {
    if from == |s| then None
    else if CertMatchAt(s, from) then Some(from)
    else FirstCertMatch(s, from + 1)
  }

  /** Where the run of ASCII letters and digits starting at `start` ends. */
  function AlnumRunEnd(s: string, start: nat): (end: nat)
    requires start <= |s|
    ensures start <= end <= |s|
    ensures forall k :: start <= k < end ==> IsAsciiAlnum(s[k])
    ensures end == |s| || !IsAsciiAlnum(s[end])
    decreases |s| - start
  {
    if start == |s| || !IsAsciiAlnum(s[start]) then start else AlnumRunEnd(s, start + 1)
  }

  /** The first `/证号：([A-Za-z0-9]+)/` group of a description text, or "-". */
  function CertificateNoText(s: string): (r: string)
    ensures r == "-" || (|r| >= 1 && forall k :: 0 <= k < |r| ==> IsAsciiAlnum(r[k]))
  {
    match FirstCertMatch(s, 0)
    case None => "-"
    case Some(i) => s[i + |CertMarker| .. AlnumRunEnd(s, i + |CertMarker|)]
  }

  /** "合格证编号": read from a text `operateDesc`; "-" otherwise. */
  function CertificateNoCell(record: JsValue): (r: string)
    ensures Get(record, "operateDesc").Str? ==> r == CertificateNoText(Get(record, "operateDesc").s)
    ensures !Get(record, "operateDesc").Str? ==> r == "-"
  {
    var desc := Get(record, "operateDesc");
    if desc.Str? then CertificateNoText(desc.s) else "-"
  }

  /** The number shows as "-" exactly when no "证号：" is followed by a letter or digit. */
  lemma CertificateNoDashIff(s: string)
    ensures CertificateNoText(s) == "-" <==> forall j: nat :: !CertMatchAt(s, j)
  {
    match FirstCertMatch(s, 0)
    case None =>
    case Some(i) =>
      var start := i + |CertMarker|;
      var r := CertificateNoText(s);
      assert r == s[start..AlnumRunEnd(s, start)];
      assert r[0] == s[start];
      assert !IsAsciiAlnum('-');
  }

  /**
   * Otherwise it is the whole maximal run of letters and digits after the
   * leftmost marker that has one.
   */
  lemma CertificateNoIsLeftmostRun(s: string, i: nat)
    requires FirstCertMatch(s, 0) == Some(i)
    ensures CertMatchAt(s, i) && forall j: nat :: j < i ==> !CertMatchAt(s, j)
    ensures var start := i + |CertMarker|;
      var r := CertificateNoText(s);
      && |r| >= 1 && start + |r| <= |s| && r == s[start..start + |r|]
      && (forall k :: 0 <= k < |r| ==> IsAsciiAlnum(r[k]))
      && (start + |r| == |s| || !IsAsciiAlnum(s[start + |r|]))
  {
    var start := i + |CertMarker|;
    var end := AlnumRunEnd(s, start);
    assert CertificateNoText(s) == s[start..end];
    assert end > start;
  }

  /** "类型" in the order-modification report: "order" reads as "订单车". */
  function OrderTypeCell(value: JsValue): (r: JsValue)
    ensures ToJsString(value) == "order" ==> r == Str("订单车")
    ensures ToJsString(value) != "order" ==> r == value
  {
    if ToJsString(value) == "order" then Str("订单车") else value
  }

  /** "载客人数": the value, or "-" when it is falsy. */
  function PassengerCell(value: JsValue): (r: JsValue)
    ensures Truthy(value) ==> r == value
    ensures !Truthy(value) ==> r == Str("-")
  {
    Or(value, Str("-"))
  }

  /** "总质量" / "整备质量": the value's text followed by " kg", or "-" when it is falsy. */
  function MassCell(value: JsValue): (r: string)
    ensures r == "-" <==> !Truthy(value)
    ensures Truthy(value) ==> r == ToJsString(value) + " kg"
  {
    if Truthy(value) then ToJsString(value) + " kg" else "-"
  }

  /** A positive or negative mass shows its decimal digits, a space and "kg". */
  lemma MassCellOfNumber(n: int)
    requires n != 0
    ensures MassCell(Num(n)) == IntToString(n) + " kg"
    ensures n > 0 ==> MassCell(Num(n)) == NatToString(n) + " kg"
    ensures n > 0 ==> DecimalValue(MassCell(Num(n))[..|MassCell(Num(n))| - 3]) == n
  {
    if n > 0 {
      NatToStringReadsBack(n);
      assert MassCell(Num(n))[..|MassCell(Num(n))| - 3] == NatToString(n);
    }
  }

  /** "打印类型": "qualified" reads as "合格证". */
  function PrintTypeCell(value: JsValue): (r: JsValue)
    ensures value == Str("qualified") ==> r == Str("合格证")
    ensures value != Str("qualified") ==> r == value
  {
    if StrictEq(value, Str("qualified")) then Str("合格证") else value
  }

  // ---------------------------------------------------------------- page

  datatype Request =
    | PrintHistory(values: Record)
    | OrderModifyInfo(params: Record)
    | CertificateCount(params: Record)
    | OperatorPrintCount(params: Record)
    | CertificateInfo(certificateNo: JsValue)

  /** A chosen time range, each end already formatted as "YYYY-MM-DD HH:mm:ss". */
  datatype Range = Range(start: string, end: string)

  function RangeParams(r: Range): (params: Record)
    ensures params.Keys == {"start", "end"}
    ensures params["start"] == Str(r.start) && params["end"] == Str(r.end)
  {
    map["start" := Str(r.start), "end" := Str(r.end)]
  }

  /**
   * A count tab's value as the page stores it: the whole resolved reply, or 0.
   * What the request client resolves with is the `{code, data, message}` body,
   * so a successful reply stores that wrapper rather than the number in it.
   */
  function CountAsWritten(reply: Reply<JsValue>): (r: JsValue)
    ensures r == Num(0) || Truthy(r)
    ensures reply.Ok? && Truthy(reply.data) ==> r == reply.data
  {
    if reply.Ok? then Or(reply.data, Num(0)) else Num(0)
  }

  /** The value a count tab is meant to show: the reply's `data`, as every other page reads it, or 0. */
  function IntendedCount(reply: Reply<JsValue>): (r: JsValue)
    ensures r == Num(0) || Truthy(r)
    ensures Backend.Payload(reply).Some? && Truthy(Backend.Payload(reply).value) ==> r == Backend.Payload(reply).value
    ensures Backend.Payload(reply).None? ==> r == Num(0)
  {
    match Backend.Payload(reply)
    case Some(v) => Or(v, Num(0))
    case None => Num(0)
  }

  /**
   * A successful count reply `{code: 200, data: n}`: as written the tab holds
   * the wrapper object, which is not a number and which React cannot show as
   * a child; as intended it holds n and shows n's decimal digits.
   */
  lemma CountHoldsTheWrapper(n: nat)
    requires n > 0
    ensures var reply := Ok(Obj(map["code" := Num(200), "data" := Num(n)]));
      && CountAsWritten(reply).Obj?
      && IntendedCount(reply) == Num(n)
      && RenderText(IntendedCount(reply)) == NatToString(n)
      && DecimalValue(RenderText(IntendedCount(reply))) == n
  {
    var reply := Ok(Obj(map["code" := Num(200), "data" := Num(n)]));
    assert Backend.Payload(reply) == Some(Num(n));
    NatToStringReadsBack(n);
  }

  /** The keys of the five report tabs. */
  const TabKeys: set<string> := {"1", "2", "3", "4", "5"}

  class Page {
    var activeTab: string
    var loading: bool
    var dataSource: JsValue
    var certificateCount: JsValue
    var printCount: JsValue
    /** The search form of the active tab. */
    var form: Record
    /** Every backend call made, in order. */
    var sent: seq<Request>

    /**
     * One of the five tabs is open, the table always receives a value (never
     * null or undefined), and each count is a reply value or 0.
     */
    ghost predicate Valid()
      reads this
    {
      && activeTab in TabKeys
      && !loading
      && Truthy(dataSource)
      && (Truthy(certificateCount) || certificateCount == Num(0))
      && (Truthy(printCount) || printCount == Num(0))
    }

    constructor ()
      ensures Valid()
      ensures activeTab == "1" && dataSource == Arr([]) && certificateCount == Num(0) && printCount == Num(0)
      ensures form == map[] && sent == []
    {
      activeTab := "1";
      loading := false;
      dataSource := Arr([]);
      certificateCount := Num(0);
      printCount := Num(0);
      form := map[];
      sent := [];
    }

    method EnterField(name: string, value: JsValue)
      requires Valid()
      modifies this
      ensures Valid()
      ensures form == old(form)[name := value]
      ensures activeTab == old(activeTab) && dataSource == old(dataSource)
      ensures certificateCount == old(certificateCount) && printCount == old(printCount) && sent == old(sent)
    {
      form := form[name := value];
    }

    /** Tab 1: the print history of a VIN; a failure keeps the table as it is. */
    method SearchPrintHistory(reply: Reply<JsValue>)
      requires Valid() && activeTab == "1"
      modifies this
      ensures Valid()
      ensures form == old(form) && activeTab == old(activeTab)
      ensures certificateCount == old(certificateCount) && printCount == old(printCount)
      ensures !Forms.RequiredRule(Field(old(form), "vin")) ==> sent == old(sent) && dataSource == old(dataSource)
      ensures Forms.RequiredRule(Field(old(form), "vin")) ==>
        && sent == old(sent) + [PrintHistory(Forms.FieldsValue(old(form), {"vin"}))]
        && dataSource == (if reply.Ok? then Or(reply.data, Arr([])) else old(dataSource))
    {
      if !Forms.RequiredRule(Field(form, "vin")) {
        return;
      }
      sent := sent + [PrintHistory(Forms.FieldsValue(form, {"vin"}))];
      if reply.Ok? {
        dataSource := Or(reply.data, Arr([]));
      }
    }

    /** Tab 2: order-vehicle modifications in a time range; a failure empties the table. */
    method SearchOrderModify(range: Option<Range>, reply: Reply<JsValue>)
      requires Valid() && activeTab == "2"
      modifies this
      ensures Valid()
      ensures form == old(form) && activeTab == old(activeTab)
      ensures certificateCount == old(certificateCount) && printCount == old(printCount)
      ensures range.None? ==> sent == old(sent) && dataSource == old(dataSource)
      ensures range.Some? ==>
        && sent == old(sent) + [OrderModifyInfo(RangeParams(range.value))]
        && dataSource == (if reply.Ok? then Or(reply.data, Arr([])) else Arr([]))
    {
      if range.None? {
        return;
      }
      sent := sent + [OrderModifyInfo(RangeParams(range.value))];
      dataSource := if reply.Ok? then Or(reply.data, Arr([])) else Arr([]);
    }

    /** Tab 3: the number of certificates in a time range, or 0. */
    method SearchCertificateCount(range: Option<Range>, reply: Reply<JsValue>)
      requires Valid() && activeTab == "3"
      modifies this
      ensures Valid()
      ensures form == old(form) && activeTab == old(activeTab)
      ensures dataSource == old(dataSource) && printCount == old(printCount)
      ensures range.None? ==> sent == old(sent) && certificateCount == old(certificateCount)
      ensures range.Some? ==>
        && sent == old(sent) + [CertificateCount(RangeParams(range.value))]
        && certificateCount == CountAsWritten(reply)
    {
      if range.None? {
        return;
      }
      sent := sent + [CertificateCount(RangeParams(range.value))];
      certificateCount := CountAsWritten(reply);
    }

    /** Tab 4: how many certificates an operator printed in a time range, or 0. */
    method SearchOperatorCount(range: Option<Range>, reply: Reply<JsValue>)
      requires Valid() && activeTab == "4"
      modifies this
      ensures Valid()
      ensures form == old(form) && activeTab == old(activeTab)
      ensures dataSource == old(dataSource) && certificateCount == old(certificateCount)
      ensures !(Forms.RequiredRule(Field(old(form), "operatorId")) && range.Some?) ==>
        sent == old(sent) && printCount == old(printCount)
      ensures Forms.RequiredRule(Field(old(form), "operatorId")) && range.Some? ==>
        && sent == old(sent) + [OperatorPrintCount(RangeParams(range.value)["user" := Field(old(form), "operatorId")])]
        && printCount == CountAsWritten(reply)
    {
      if !Forms.RequiredRule(Field(form, "operatorId")) || range.None? {
        return;
      }
      sent := sent + [OperatorPrintCount(RangeParams(range.value)["user" := Field(form, "operatorId")])];
      printCount := CountAsWritten(reply);
    }

    /** Tab 5: one certificate by number; the table holds it alone, or nothing. */
    method SearchCertificateInfo(reply: Reply<JsValue>)
      requires Valid() && activeTab == "5"
      modifies this
      ensures Valid()
      ensures form == old(form) && activeTab == old(activeTab)
      ensures certificateCount == old(certificateCount) && printCount == old(printCount)
      ensures !Forms.RequiredRule(Field(old(form), "certificateNo")) ==> sent == old(sent) && dataSource == old(dataSource)
      ensures Forms.RequiredRule(Field(old(form), "certificateNo")) ==>
        && sent == old(sent) + [CertificateInfo(Field(old(form), "certificateNo"))]
        && dataSource == (if reply.Ok? && Truthy(reply.data) then Arr([reply.data]) else Arr([]))
    {
      if !Forms.RequiredRule(Field(form, "certificateNo")) {
        return;
      }
      sent := sent + [CertificateInfo(Field(form, "certificateNo"))];
      dataSource := if reply.Ok? && Truthy(reply.data) then Arr([reply.data]) else Arr([]);
    }

    /**
     * Switching to another tab (the tab bar reports only a change of key)
     * clears the search form and empties the table; the counts stay.
     */
    method ChangeTab(key: string)
      requires Valid() && key in TabKeys && key != activeTab
      modifies this
      ensures Valid()
      ensures activeTab == key && form == map[] && dataSource == Arr([])
      ensures certificateCount == old(certificateCount) && printCount == old(printCount) && sent == old(sent)
    {
      activeTab := key;
      form := map[];
      dataSource := Arr([]);
    }
  }
}
