/**
  The JavaScript values the screens and slices compute with: identifiers that may be absent,
  the numeric conversions `parseFloat`, `parseInt` and `Number` applied to the text of an input
  field, the `x || 0` coercion idiom, and the empty-string sentinel an edited cell may hold.
 */
module JsValues {

  import opened Wrappers

  /** An identifier field (`_id` or `id`); `NoId` stands for both `null` and `undefined`. */
  datatype JsId = NoId | Id(s: string)

  /** JavaScript truthiness of an identifier: present and not the empty string. */
  predicate Truthy(x: JsId)
  {
    x.Id? && x.s != ""
  }

  /** `a || b` on identifiers: `a` when it is truthy, otherwise `b`. */
  function IdOr(a: JsId, b: JsId): (r: JsId)
    ensures Truthy(a) ==> r == a
    ensures !Truthy(a) ==> r == b
  {
    if Truthy(a) then a else b
  }

  /**
    The text of a numeric input field, classified by what the JavaScript conversions make of it:
    - EmptyText: the empty string `''`;
    - Decimal(v): the whole text, blanks around it aside, is a plain decimal numeral (sign,
      digits, optional point) of value v;
    - DecimalPrefix(v): a numeral of value v followed by other characters (`"12abc"`);
    - NonNumeric: no leading numeral at all (`"abc"`, `"."`, `"-"`).
   */
  datatype NumText = EmptyText | Decimal(v: real) | DecimalPrefix(v: real) | NonNumeric

  /** A JavaScript number: a finite value, or `NaN`. */
  datatype JsNumber = NaN | Finite(v: real)

  /** `parseFloat(t)`: the value of the leading numeral, `NaN` when there is none. */
  function ParseFloat(t: NumText): (n: JsNumber)
    ensures n.Finite? <==> t.Decimal? || t.DecimalPrefix?
    ensures n.Finite? ==> n.v == t.v
  {
    match t
    case Decimal(v) => Finite(v)
    case DecimalPrefix(v) => Finite(v)
    case EmptyText => NaN
    case NonNumeric => NaN
  }

  /** `Number(t)`: the value only when the whole text is a numeral; `Number('')` is 0. */
  function NumberOf(t: NumText): (n: JsNumber)
    ensures n.Finite? <==> t.Decimal? || t.EmptyText?
    ensures t.EmptyText? ==> n == Finite(0.0)
  {
    match t
    case EmptyText => Finite(0.0)
    case Decimal(v) => Finite(v)
    case DecimalPrefix(_) => NaN
    case NonNumeric => NaN
  }

  /** `isNaN(t)`, which converts its argument with `Number` first. */
  predicate IsNaN(t: NumText)
  {
    NumberOf(t).NaN?
  }

  /** `n || 0` on numbers: `NaN` (and 0 itself) become 0. */
  function OrZero(n: JsNumber): (r: real)
    ensures n.Finite? ==> r == n.v
    ensures n.NaN? ==> r == 0.0
  {
    match n
    case NaN => 0.0
    case Finite(v) => v
  }

  /** `parseFloat(t) || 0`: never NaN; empty and non-numeric text count as 0. */
  function CoerceFloat(t: NumText): (r: real)
    ensures t.EmptyText? || t.NonNumeric? ==> r == 0.0
    ensures t.Decimal? || t.DecimalPrefix? ==> r == t.v
  {
    OrZero(ParseFloat(t))
  }

  /** Truncation toward zero, which is what `parseInt` does to the fraction of a numeral. */
  function Trunc(v: real): (r: int)
    ensures 0.0 <= v ==> r as real <= v < r as real + 1.0
    ensures v < 0.0 ==> r as real - 1.0 < v <= r as real
  {
    if v >= 0.0 then v.Floor else -((-v).Floor)
  }

  /** `parseInt(t) || 0`: the truncated leading numeral, 0 when there is none. */
  function CoerceInt(t: NumText): (r: int)
    ensures t.EmptyText? || t.NonNumeric? ==> r == 0
    ensures t.Decimal? || t.DecimalPrefix? ==> r == Trunc(t.v)
  {
    match t
    case Decimal(v) => Trunc(v)
    case DecimalPrefix(v) => Trunc(v)
    case EmptyText => 0
    case NonNumeric => 0
  }

  /** What `String(x)` gives for a finite number: a text that parses back to x. */
  function ToText(x: real): (t: NumText)
    ensures ParseFloat(t) == Finite(x) && NumberOf(t) == Finite(x)
  {
    Decimal(x)
  }

  /** `JsNumber` comparison `a > b`: false whenever either side is `NaN`. */
  predicate Greater(a: JsNumber, b: real)
  {
    a.Finite? && a.v > b
  }

  /** `JsNumber` comparison `a <= b`: false whenever either side is `NaN`. */
  predicate AtMost(a: JsNumber, b: real)
  {
    a.Finite? && a.v <= b
  }

  /** A stored cell that is either a number or the empty-string sentinel `''` left while typing. */
  datatype Slot<T> = Blank | Filled(v: T)

  /** `parseFloat(cell) || 0` on a stored real cell. */
  function RealSlotValue(s: Slot<real>): (r: real)
    ensures s.Blank? ==> r == 0.0
    ensures s.Filled? ==> r == s.v
  {
    match s
    case Blank => 0.0
    case Filled(x) => x
  }

  /** `payload || message` for an error string: the payload unless it is absent or empty. */
  function MessageOr(payload: Option<string>, message: string): (r: string)
    ensures payload.Some? && payload.value != "" ==> r == payload.value
    ensures payload.None? || payload.value == "" ==> r == message
  {
    if payload.Some? && payload.value != "" then payload.value else message
  }


  /** `s.findIndex(f)`: the first position whose element satisfies `f`; `None` stands for -1. */
  function FindIndex<T>(s: seq<T>, f: T -> bool): (r: Option<nat>)
    ensures r.Some? ==> r.value < |s| && f(s[r.value]) && forall j | 0 <= j < r.value :: !f(s[j])
    ensures r.None? ==> forall j | 0 <= j < |s| :: !f(s[j])
  {
    if s == [] then None
    else if f(s[0]) then Some(0)
    else
      match FindIndex(s[1..], f)
      case None => None
      case Some(k) => Some(k + 1)
  }
}
