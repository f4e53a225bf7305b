/**
 * The system's constant tables: user roles, print types, vehicle types and
 * order states with their display names, identifier lengths and paging
 * defaults. Each key/value table is a map from the object's key to its value.
 */
module Constants {
  import Identifiers
  import opened Js

  const UserRoles: map<string, string> := map[
    "PARAMETER_MAINTAINER" := "PARAMETER_MAINTAINER",
    "ORDER_MAINTAINER" := "ORDER_MAINTAINER",
    "PRINTER" := "PRINTER",
    "REPRINTER" := "REPRINTER",
    "CHASSIS_MAINTAINER" := "CHASSIS_MAINTAINER",
    "SYSTEM_ADMIN" := "SYSTEM_ADMIN",
    "REPORT_VIEWER" := "REPORT_VIEWER"
  ]

  const RoleNames: map<string, string> := map[
    UserRoles["PARAMETER_MAINTAINER"] := "参数表维护员",
    UserRoles["ORDER_MAINTAINER"] := "订单车维护员",
    UserRoles["PRINTER"] := "打印操作员",
    UserRoles["REPRINTER"] := "补打操作员",
    UserRoles["CHASSIS_MAINTAINER"] := "二类底盘维护员",
    UserRoles["SYSTEM_ADMIN"] := "系统管理员",
    UserRoles["REPORT_VIEWER"] := "报表查询员"
  ]

  const PrintTypes: map<string, string> := map[
    "NORMAL" := "NORMAL",
    "REPRINT" := "REPRINT",
    "SUPPLEMENT" := "SUPPLEMENT"
  ]

  const PrintTypeNames: map<string, string> := map[
    PrintTypes["NORMAL"] := "正常打印",
    PrintTypes["REPRINT"] := "重打",
    PrintTypes["SUPPLEMENT"] := "补打"
  ]

  const VehicleTypes: map<string, string> := map[
    "PASSENGER" := "PASSENGER",
    "TRUCK" := "TRUCK",
    "SPECIAL" := "SPECIAL",
    "CHASSIS" := "CHASSIS"
  ]

  const VehicleTypeNames: map<string, string> := map[
    VehicleTypes["PASSENGER"] := "乘用车",
    VehicleTypes["TRUCK"] := "货车",
    VehicleTypes["SPECIAL"] := "专用车",
    VehicleTypes["CHASSIS"] := "二类底盘"
  ]

  const OrderStatus: map<string, string> := map[
    "PENDING" := "PENDING",
    "APPROVED" := "APPROVED",
    "IN_PRODUCTION" := "IN_PRODUCTION",
    "COMPLETED" := "COMPLETED"
  ]

  const OrderStatusNames: map<string, string> := map[
    OrderStatus["PENDING"] := "待审核",
    OrderStatus["APPROVED"] := "已批准",
    OrderStatus["IN_PRODUCTION"] := "生产中",
    OrderStatus["COMPLETED"] := "已完成"
  ]

  const OperatorStatus: map<string, string> := map[
    "ENABLED" := "ENABLED",
    "DISABLED" := "DISABLED"
  ]

  const OperatorStatusNames: map<string, string> := map[
    OperatorStatus["ENABLED"] := "启用",
    OperatorStatus["DISABLED"] := "禁用"
  ]

  const VinLength: nat := 17
  const VsnLength: nat := 13
  const CertificateNoLength: nat := 14

  const DefaultPage: nat := 1
  const DefaultPageSize: nat := 10
  const PageSizeOptions: seq<nat> := [10, 20, 50, 100]

  /** ROLE_NAMES names exactly the seven roles of USER_ROLES. */
  lemma RoleNamesCoverRoles()
    ensures RoleNames.Keys == UserRoles.Values
    ensures forall k :: k in UserRoles ==> UserRoles[k] == k
  {
  }

  /** PRINT_TYPE_NAMES names exactly the three print types. */
  lemma PrintTypeNamesCoverPrintTypes()
    ensures PrintTypeNames.Keys == PrintTypes.Values == {"NORMAL", "REPRINT", "SUPPLEMENT"}
  {
  }

  /** VEHICLE_TYPE_NAMES names exactly the four vehicle types. */
  lemma VehicleTypeNamesCoverVehicleTypes()
    ensures VehicleTypeNames.Keys == VehicleTypes.Values
  {
  }

  /** ORDER_STATUS_NAMES names exactly the four order states. */
  lemma OrderStatusNamesCoverOrderStatus()
    ensures OrderStatusNames.Keys == OrderStatus.Values
  {
  }

  /** OPERATOR_STATUS_NAMES names exactly the two operator states. */
  lemma OperatorStatusNamesCoverOperatorStatus()
    ensures OperatorStatusNames.Keys == OperatorStatus.Values
  {
  }

  /** Every display name is non-empty, so a table lookup that hits is truthy. */
  lemma NamesAreNonEmpty()
    ensures forall k :: k in PrintTypeNames ==> PrintTypeNames[k] != ""
    ensures forall k :: k in VehicleTypeNames ==> VehicleTypeNames[k] != ""
  {
  }

  /** The length constants agree with the lengths the validators' patterns fix. */
  lemma LengthsAgreeWithValidators(s: string)
    ensures Identifiers.ValidateVin(Str(s)) ==> |s| == VinLength
    ensures Identifiers.ValidateVsn(Str(s)) ==> |s| == VsnLength
    ensures Identifiers.ValidateCertificateNo(Str(s)) ==> |s| == CertificateNoLength
  {
    Identifiers.MatchesRepeatIff(s, Identifiers.VinClass, 17);
    Identifiers.MatchesRepeatIff(s, Identifiers.UpperAlnumClass, 13);
    Identifiers.MatchesRepeatIff(s, Identifiers.UpperAlnumClass, 14);
  }

  lemma DefaultPageSizeIsOffered()
    ensures DefaultPageSize in PageSizeOptions && DefaultPage == 1
  {
  }
}
