/**
 * The "提示" dialog that sends a classified vehicle to printing: it shows a
 * prompt naming the vehicle's track, and on confirmation navigates to the
 * supplement page for "supplement" and to the print page for everything
 * else, carrying the identifiers in the query string.
 */
module GoPrint {
  import opened Common
  import opened Js
  import StatusChange

  /**
   * A navigation target: a path and its query parameters in order. Values
   * are kept as the text before `encodeURIComponent`, which the target page's
   * query-string reader undoes.
   */
  datatype Route = Route(path: string, query: seq<(string, string)>)

  /** `encodeURIComponent(v || "")` before encoding: a falsy value sends empty text. */
  function QueryValue(v: JsValue): (r: string)
    ensures !Truthy(v) ==> r == ""
    ensures v.Str? ==> r == v.s
  {
    ToJsString(Or(v, Str("")))
  }

  /** The first value of a query parameter, as `searchParams.get(key)` reads it. */
  function Lookup(query: seq<(string, string)>, key: string): (r: Option<string>)
    ensures r.None? <==> forall k :: 0 <= k < |query| ==> query[k].0 != key
    ensures r.Some? ==> exists k :: 0 <= k < |query| && query[k] == (key, r.value)
  {
    if |query| == 0 then None
    else if query[0].0 == key then Some(query[0].1)
    else
      var r := Lookup(query[1..], key);
      assert forall k :: 1 <= k < |query| ==> query[k] == query[1..][k - 1];
      r
  }

  /** "确定": where the dialog navigates, or None when there is no record. */
  function RouteFor(record: JsValue): (r: Option<Route>)
    ensures r.None? <==> !Truthy(record)
    ensures r.Some? ==> (r.value.path == "/reprint" <==> Get(record, "type") == Str("supplement"))
    ensures r.Some? ==> r.value.path in {"/reprint", "/print"}
  {
    if !Truthy(record) then None
    else
      var vin := QueryValue(Get(record, "vin"));
      var vsn := QueryValue(Get(record, "vsnCode"));
      if StrictEq(Get(record, "type"), Str("supplement")) then
        Some(Route("/reprint", [("vin", vin), ("vsn", vsn)]))
      else
        Some(Route("/print", [("vin", vin), ("vsn", vsn), ("type", QueryValue(Get(record, "type")))]))
  }

  /**
   * The dialog navigates exactly when it has a record; a supplement goes to
   * the supplement page and everything else to the print page, and the target
   * page reads back the record's own identifiers.
   */
  lemma RouteCarriesRecord(record: JsValue)
    ensures RouteFor(record).None? <==> !Truthy(record)
    ensures RouteFor(record).Some? ==>
      var route := RouteFor(record).value;
      && (route.path == "/reprint" <==> Get(record, "type") == Str("supplement"))
      && (route.path == "/reprint" || route.path == "/print")
      && Lookup(route.query, "vin") == Some(QueryValue(Get(record, "vin")))
      && Lookup(route.query, "vsn") == Some(QueryValue(Get(record, "vsnCode")))
      && (Lookup(route.query, "type").Some? <==> route.path == "/print")
      && (route.path == "/print" ==> Lookup(route.query, "type") == Some(QueryValue(Get(record, "type"))))
  {
    if RouteFor(record).Some? {
      var route := RouteFor(record).value;
      if route.path == "/reprint" {
        assert route.query[1..][1..] == [];
      } else {
        assert route.query[2].0 == "type";
        assert route.query[1..][1..][1..] == [];
      }
    }
  }

  const UnknownPrompt := "当前状态未知，是否进入打印页面？"

  /** The prompt in the dialog body, chosen by the record's `type`; None when there is no record. */
  function Prompt(record: JsValue): (r: Option<string>)
    ensures r.None? <==> !Truthy(record)
  {
    if !Truthy(record) then None
    else
      var t := Get(record, "type");
      Some(
        if StrictEq(t, Str("reprint")) then "当前状态为：重打，是否进入重打流程？"
        else if StrictEq(t, Str("supplement")) then "当前状态为：补打，是否进入补打流程？"
        else if StrictEq(t, Str("chassis")) then "当前状态为：二类底盘，是否进入二类底盘打印流程？"
        else if StrictEq(t, Str("order")) then "当前状态为：订单车，是否进入订单车打印流程？"
        else if StrictEq(t, Str("whole")) then "当前状态为：整车，是否进入整车打印流程？"
        else UnknownPrompt)
  }

  /**
   * Every track the wizard can report gets a prompt of its own, and any other
   * type gets the "unknown" prompt.
   */
  lemma PromptsDistinguishTracks(a: JsValue, b: JsValue)
    requires Truthy(a) && Truthy(b)
    ensures Prompt(a).Some? && Prompt(b).Some?
    ensures (Prompt(a).value == UnknownPrompt) <==>
              !(Get(a, "type").Str? && Get(a, "type").s in StatusChange.TrackTags)
    ensures Get(a, "type").Str? && Get(a, "type").s in StatusChange.TrackTags ==>
              (Prompt(a) == Prompt(b) <==> Get(a, "type") == Get(b, "type"))
  {
  }

  /** A record the wizard classified goes where its track is printed. */
  lemma ClassifiedRecordRoutes(record: JsValue, tag: string)
    requires record.Obj? && Get(record, "type") == Str(tag) && tag in StatusChange.TrackTags
    ensures RouteFor(record).Some? && Prompt(record).Some? && Prompt(record).value != UnknownPrompt
    ensures RouteFor(record).value.path == (if tag == "supplement" then "/reprint" else "/print")
  {
  }
}
