/**
 * The printable vehicle certificate ("车辆合格证"): a fixed table of numbered
 * cells filled from a certificate record.
 */
module CertificatePreview {
  import opened Common
  import opened Js

  /** Where a cell's text comes from. */
  datatype Source =
    | Plain(field: string)  // `data.field || ""`
    | Brand                 // brand with "牌", a space, and the vehicle name
    | DisplacementPower     // displacement with "/", then power

  /** One cell of the layout: its number, caption and source. */
  datatype Slot = Slot(number: nat, caption: string, source: Source)

  /** One rendered cell: "label.caption" and the text beside it. */
  datatype Cell = Cell(number: nat, caption: string, text: string)

  /** The cells in table order; number 38 sits beside number 19. */
  const Layout: seq<Slot> := [
    Slot(1, "合格证编号", Plain("certificateNo")),
    Slot(2, "发证日期", Plain("issueDate")),
    Slot(3, "车辆制造企业名称", Plain("manufacturerName")),
    Slot(4, "车辆品牌/车辆名称", Brand),
    Slot(5, "车辆型号", Plain("vehicleModel")),
    Slot(6, "车辆识别代号/车架号", Plain("vin")),
    Slot(7, "车辆颜色", Plain("vehicleColor")),
    Slot(8, "底盘型号/底盘ID", Plain("chassisModel")),
    Slot(9, "底盘合格证编号", Plain("chassisCertificateNo")),
    Slot(10, "发动机型号", Plain("engineInfo")),
    Slot(11, "发动机号", Plain("engineNo")),
    Slot(12, "燃料种类", Plain("fuelType")),
    Slot(13, "排量和功率(ml/kw)", DisplacementPower),
    Slot(14, "排放标准", Plain("emissionStandard")),
    Slot(15, "外廓尺寸(mm)", Plain("outlineSize")),
    Slot(16, "货箱内部尺寸(mm)", Plain("cargoBoxInnerSize")),
    Slot(17, "钢板弹簧片数(片)", Plain("steelSpringLeafCount")),
    Slot(18, "轮胎数", Plain("tireCount")),
    Slot(19, "轮胎规格", Plain("tireSpec")),
    Slot(38, "车辆类型", Plain("vehicleType")),
    Slot(20, "轮距(前/后)(mm)", Plain("track")),
    Slot(21, "轮距(mm)", Plain("wheelbase")),
    Slot(22, "轮荷(kg)", Plain("wheelLoad")),
    Slot(23, "轴数", Plain("axleCount")),
    Slot(24, "转向形式", Plain("steeringType")),
    Slot(25, "总质量(kg)", Plain("totalMass")),
    Slot(26, "整备质量(kg)", Plain("curbWeight")),
    Slot(27, "额定载质量(kg)", Plain("ratedLoadMass")),
    Slot(28, "载质量利用系数", Plain("loadMassUtilizationCoefficient")),
    Slot(29, "准牵引总质量(kg)", Plain("quasiTractionTotalMass")),
    Slot(30, "半挂车鞍座最大允许总质量(kg)", Plain("semiTrailerSaddleMaxMass")),
    Slot(31, "驾驶室准乘人数", Plain("cabSeatingCapacity")),
    Slot(32, "额定载客", Plain("ratedPassengerCapacity")),
    Slot(33, "最高车速(km/h)", Plain("maxSpeed")),
    Slot(34, "车辆制造日期", Plain("manufactureDate")),
    Slot(35, "备注", Plain("remark")),
    Slot(36, "企业标准", Plain("enterpriseStandard")),
    Slot(37, "产品生产地址", Plain("productionAddress"))
  ]

  /** `${v}` followed by `suffix` when `v` is truthy, else nothing. */
  function TextWithSuffix(v: JsValue, suffix: string): string {
    if Truthy(v) then ToJsString(v) + suffix else ""
  }

  function CellText(data: JsValue, source: Source): string {
    match source
    case Plain(f) => ShowOrEmpty(Get(data, f))
    case Brand => TextWithSuffix(Get(data, "vehicleBrand"), "牌") + " " + ShowOrEmpty(Get(data, "vehicleName"))
    case DisplacementPower => TextWithSuffix(Get(data, "displacement"), "/") + ShowOrEmpty(Get(data, "power"))
  }

  /** The certificate for `data`, or nothing at all when `data` is falsy. */
  function Preview(data: JsValue): (cells: Option<seq<Cell>>)
    ensures cells.None? <==> !Truthy(data)
    ensures cells.Some? ==> |cells.value| == |Layout|
    ensures cells.Some? ==> forall i :: 0 <= i < |Layout| ==>
      cells.value[i] == Cell(Layout[i].number, Layout[i].caption, CellText(data, Layout[i].source))
  {
    if !Truthy(data) then None
    else Some(seq(|Layout|, i requires 0 <= i < |Layout| => Cell(Layout[i].number, Layout[i].caption, CellText(data, Layout[i].source))))
  }

  /** The number of the cell at position `i`: 1 to 19, then 38, then 20 to 37. */
  function NumberAt(i: nat): nat {
    if i < 19 then i + 1 else if i == 19 then 38 else i
  }

  lemma LayoutNumbers()
    ensures |Layout| == 38
    ensures forall i :: 0 <= i < 38 ==> Layout[i].number == NumberAt(i)
  {
  }

  /** The cell numbers the layout uses. */
  function Numbers(): set<nat> {
    set i | 0 <= i < |Layout| :: Layout[i].number
  }

  /**
   * Every number from 1 to 38 labels exactly one cell, and 38 sits right
   * after 19.
   */
  lemma LabelOrder()
    ensures forall n: nat :: n in Numbers() <==> 1 <= n <= 38
    ensures forall i, j :: 0 <= i < j < |Layout| ==> Layout[i].number != Layout[j].number
    ensures Layout[18].number == 19 && Layout[19].number == 38
  {
    LayoutNumbers();
    forall n: nat | 1 <= n <= 38
      ensures n in Numbers()
    {
      var i := if n <= 19 then n - 1 else if n == 38 then 19 else n;
      assert Layout[i].number == n;
    }
  }

  /** Cell 1 shows the record's certificate number as it is, so whatever number the caller merged in. */
  lemma FirstCellIsCertificateNo(data: JsValue)
    requires Truthy(data)
    ensures Preview(data).value[0].number == 1
    ensures Preview(data).value[0].text == ShowOrEmpty(Get(data, "certificateNo"))
  {
  }

  /** Every single-field cell shows its field's text, and nothing when the field is falsy (0 included). */
  lemma PlainCellsShowTheirField(data: JsValue, i: nat)
    requires Truthy(data) && i < |Layout| && Layout[i].source.Plain?
    ensures var f := Layout[i].source.field;
      && (!Truthy(Get(data, f)) ==> Preview(data).value[i].text == "")
      && (Get(data, f).Str? ==> Preview(data).value[i].text == Get(data, f).s)
  {
  }

  /** Cell 4 reads "<brand>牌 <name>", with the brand part or the name left empty when falsy. */
  lemma BrandCell(data: JsValue, brand: string, name: string)
    requires Truthy(data)
    ensures Get(data, "vehicleBrand") == Str(brand) && brand != "" && Get(data, "vehicleName") == Str(name) ==>
      Preview(data).value[3].text == brand + "牌 " + name
    ensures !Truthy(Get(data, "vehicleBrand")) && !Truthy(Get(data, "vehicleName")) ==>
      Preview(data).value[3].text == " "
  {
    assert Layout[3].source == Brand;
  }

  /** Cell 13 reads "<displacement>/<power>", with either part left empty when falsy. */
  lemma DisplacementPowerCell(data: JsValue, displacement: string, power: string)
    requires Truthy(data)
    ensures Get(data, "displacement") == Str(displacement) && displacement != "" && Get(data, "power") == Str(power) ==>
      Preview(data).value[12].text == displacement + "/" + power
    ensures !Truthy(Get(data, "displacement")) ==> Preview(data).value[12].text == ShowOrEmpty(Get(data, "power"))
  {
    assert Layout[12].source == DisplacementPower;
  }
}
