/**
 * The dynamically typed values that flow through the pipeline: spreadsheet
 * cells, keyword arguments, dictionary values and exception details.
 * `str()`, truthiness, `type(x).__name__` and `isinstance(x, (int, float))`
 * are defined on them as Python defines them for these types.
 */
module PyValue {
  import opened Wrappers
  import opened PyText
  import opened PyDate

  type ValidDate = d: Date | Valid(d) witness Date(1, 1, 1)

  datatype Value =
    | VNone
    | VBool(b: bool)
    | VInt(i: int)
    | VFloat(f: Dec)
    | VStr(s: string)
    | VDate(date: ValidDate)
      /** A `datetime` at midnight, as `datetime.combine(d, time())` builds it. */
    | VDateTime(day: ValidDate)
    | VList(items: seq<Value>)
      /** Any other object: its type name, what `str()` gives (`None` when `__str__` raises), its truthiness. */
    | VObject(typeName: string, text: Option<string>, truthy: bool)

  /** A Python `dict` with string keys; insertion order is not modelled. */
  type Dict = map<string, Value>

  /** `bool(v)` */
  predicate Truthy(v: Value) {
    match v
    case VNone => false
    case VBool(b) => b
    case VInt(i) => i != 0
    case VFloat(f) => f.mant != 0
    case VStr(s) => s != ""
    case VDate(_) => true
    case VDateTime(_) => true
    case VList(items) => |items| > 0
    case VObject(_, _, t) => t
  }

  /** `type(v).__name__` */
  function TypeName(v: Value): string {
    match v
    case VNone => "NoneType"
    case VBool(_) => "bool"
    case VInt(_) => "int"
    case VFloat(_) => "float"
    case VStr(_) => "str"
    case VDate(_) => "date"
    case VDateTime(_) => "datetime"
    case VList(_) => "list"
    case VObject(n, _, _) => n
  }

  /**
   * The interpreter's own name of the type, as its `TypeError` and
   * `AttributeError` messages print it: the `datetime` types are named
   * with their module.
   */
  function TpName(v: Value): string {
    if v.VDate? || v.VDateTime? then "datetime." + TypeName(v) else TypeName(v)
  }

  /** `str(type(v))` for the built-in types: `<class 'float'>`. */
  function ClassText(v: Value): string {
    "<class '" + TpName(v) + "'>"
  }

  /** `isinstance(v, int)` (a `bool` is an `int` in Python). */
  predicate IsInt(v: Value) { v.VBool? || v.VInt? }

  /** `isinstance(v, (int, float))` */
  predicate IsNumber(v: Value) { v.VBool? || v.VInt? || v.VFloat? }

  /** The number a numeric value stands for. */
  function NumberOf(v: Value): real
    requires IsNumber(v)
  {
    match v
    case VBool(b) => if b then 1.0 else 0.0
    case VInt(i) => i as real
    case VFloat(f) => ToReal(f)
  }

  function IntOf(v: Value): int
    requires IsInt(v)
  {
    match v
    case VBool(b) => if b then 1 else 0
    case VInt(i) => i
  }

  lemma IntOfNumber(v: Value)
    requires IsInt(v)
    ensures NumberOf(v) == IntOf(v) as real
  {
  }

  /** `repr(s)` for a string, choosing the quote as Python does. */
  function ReprStr(s: string): string {
    if '\'' !in s || '"' in s then "'" + s + "'" else "\"" + s + "\""
  }

  /** The text of a string value (empty for any other value). */
  function TextOf(v: Value): string {
    if v.VStr? then v.s else ""
  }

  /** `f"{v}"` and `str(v)` as text: empty when the object's `__str__` raises. */
  function FormatText(v: Value): string {
    StrOf(v).GetOr("")
  }

  /** `str(v)`; `None` when the object's `__str__` raises. */
  function StrOf(v: Value): Option<string>
    decreases v, 2
  {
    match v
    case VNone => Some("None")
    case VBool(b) => Some(if b then "True" else "False")
    case VInt(i) => Some(IntText(i))
    case VFloat(f) => Some(DecText(f))
    case VStr(s) => Some(s)
    case VDate(d) => Some(IsoText(d))
    case VDateTime(d) => Some(MidnightText(d))
    case VList(items) => ReprList(v, items)
    case VObject(_, t, _) => t
  }

  /** `repr(v)`: as `str` except that strings are quoted. */
  function ReprOf(v: Value): Option<string>
    decreases v, 3
  {
    match v
    case VStr(s) => Some(ReprStr(s))
    case VDate(d) => Some("datetime.date(" + IntText(d.year) + ", " + IntText(d.month) + ", " + IntText(d.day) + ")")
    case VDateTime(d) => Some("datetime.datetime(" + IntText(d.year) + ", " + IntText(d.month) + ", " + IntText(d.day) + ", 0, 0)")
    case _ => StrOf(v)
  }

  /** `repr` of a list: the `repr` of each item between brackets. */
  function ReprList(whole: Value, items: seq<Value>): Option<string>
    requires forall x :: x in items ==> x < whole
    decreases whole, 1
  {
    if items == [] then Some("[]")
    else
      var parts := ReprItems(whole, items);
      if parts.Some? then Some("[" + Join(", ", parts.value) + "]") else None
  }

  function ReprItems(whole: Value, items: seq<Value>): (r: Option<seq<string>>)
    requires forall x :: x in items ==> x < whole
    ensures r.Some? ==> |r.value| == |items|
    decreases whole, 0, |items|
  {
    if items == [] then Some([])
    else
      assert items[0] in items;
      assert forall x :: x in items[1..] ==> x in items;
      match ReprOf(items[0])
      case None => None
      case Some(first) =>
        match ReprItems(whole, items[1..])
        case None => None
        case Some(rest) => Some([first] + rest)
  }

  /** A list of strings, as JSON and `repr` see `["a", "b"]`. */
  function StrList(xs: seq<string>): (v: Value)
    ensures v.VList? && |v.items| == |xs|
    ensures forall k :: 0 <= k < |xs| ==> v.items[k] == VStr(xs[k])
  {
    VList(seq(|xs|, k requires 0 <= k < |xs| => VStr(xs[k])))
  }

  /** Strings have a `str()` that never raises and is the string itself. */
  lemma StrOfStr(s: string)
    ensures StrOf(VStr(s)) == Some(s)
  {
  }
}
