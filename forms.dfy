/**
 * The form rules the pages declare, as the form library applies them to a
 * field's value:
 *   - a rule holding only `required` fails on undefined, null, "" and [];
 *   - any other rule without a `type` is a string rule that is skipped when
 *     the field is not required and its value is undefined, null or "";
 *   - `len` is such a string rule: any other value must be a string of that
 *     many characters, so numbers, booleans, arrays and objects fail it;
 *   - `pattern` tests the value's text;
 *   - a custom `validator` replaces the built-in checks.
 *
 * It also models the part of a form's store the pages observe: the store
 * keeps the value of a field after its input is unmounted, but reading
 * `getFieldsValue()` returns only the fields mounted at that moment, and a
 * form that mounts with `initialValues` merges them under what the store
 * already holds.
 */
module Forms {
  import opened Js

  /** Where a non-required string rule is skipped. */
  predicate EmptyForString(v: JsValue) {
    Nullish(v) || v == Str("")
  }

  /** `{ required: true }` */
  predicate RequiredRule(v: JsValue) {
    !(EmptyForString(v) || v == Arr([]))
  }

  /** `{ len: n }` */
  predicate LenRule(v: JsValue, n: nat) {
    match v
    case Str(s) => s == "" || |s| == n
    case Undefined => true
    case Null => true
    case _ => false
  }

  /** A length rule passes exactly on a skipped value or a string of that length. */
  lemma LenRuleIff(v: JsValue, n: nat)
    ensures LenRule(v, n) <==> EmptyForString(v) || (v.Str? && |v.s| == n)
  {
  }

  /** `{ pattern: p }`, where `matches` is the test of `p` on the value's text. */
  predicate PatternRule(v: JsValue, matches: bool) {
    EmptyForString(v) || matches
  }

  /** A required field rejects every empty value, and accepts exactly the non-empty strings among strings. */
  lemma RequiredRejectsEmpty(v: JsValue, s: string)
    ensures EmptyForString(v) ==> !RequiredRule(v)
    ensures RequiredRule(Str(s)) <==> s != ""
  {
  }

  /**
   * `getFieldsValue()`: the stored value of every field in `mounted`; a
   * field the store has no value for reads as undefined.
   */
  function FieldsValue(store: Record, mounted: set<string>): (r: Record)
    ensures r.Keys == mounted
    ensures forall k :: k in mounted ==> r[k] == Field(store, k)
  {
    map k | k in mounted :: Field(store, k)
  }

  /**
   * Reading the values sees nothing outside the mounted fields: with nothing
   * mounted it is empty, reading twice changes nothing, narrowing the
   * mounted set narrows the result, and a value stored for an unmounted
   * field never shows.
   */
  lemma FieldsValueSeesOnlyMounted(store: Record, mounted: set<string>, fewer: set<string>, k: string, v: JsValue)
    ensures FieldsValue(store, {}) == map[]
    ensures FieldsValue(FieldsValue(store, mounted), mounted) == FieldsValue(store, mounted)
    ensures fewer <= mounted ==> FieldsValue(FieldsValue(store, mounted), fewer) == FieldsValue(store, fewer)
    ensures k !in mounted ==> FieldsValue(store[k := v], mounted) == FieldsValue(store, mounted)
  {
  }

  /**
   * A form mounting with `initialValues`: every value the store already
   * holds wins, and the initial values fill only the keys it lacks.
   */
  function MountWithInitialValues(initial: Record, store: Record): (r: Record)
    ensures r.Keys == initial.Keys + store.Keys
    ensures forall k :: k in store ==> r[k] == store[k]
    ensures forall k :: k in initial && k !in store ==> r[k] == initial[k]
  {
    initial + store
  }

  /** Mounting into an empty store shows the initial values; mounting again with any values changes nothing already stored. */
  lemma MountKeepsStore(initial: Record, later: Record)
    ensures MountWithInitialValues(initial, map[]) == initial
    ensures var s := MountWithInitialValues(initial, map[]);
      forall k :: k in initial ==> Field(MountWithInitialValues(later, s), k) == Field(initial, k)
  {
  }
}
