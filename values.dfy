/** Dynamically typed values as they travel through the alert pipeline: the
    decoded JSON of a rule's parameters, the keyword parameters handed to a
    trigger, the metadata a trigger reports, and the pieces of an alert
    message. */
module Values {

  datatype Option<+T> = None | Some(value: T)

  /** A decoded JSON value (or a Python value of the same shape). */
  datatype Value =
    | Null
    | Bool(b: bool)
    | Num(n: real)
    | Str(s: string)
    | List(items: seq<Value>)
    | Object(fields: map<string, Value>)

  /** A trigger's parameter bag, `dict` keyed by parameter name. */
  type Params = map<string, Value>

  /** `params.get(key, fallback)`: the stored value when the key is present,
      otherwise the fallback. */
  function Get(params: Params, key: string, fallback: Value): (v: Value)
    ensures key in params ==> v == params[key]
    ensures key !in params ==> v == fallback
  {
    if key in params then params[key] else fallback
  }

  /** The values Python's `float(...)` converts without raising: numbers and
      booleans. */
  predicate Numeric(v: Value)
  {
    v.Num? || v.Bool?
  }

  /** `float(v)` on a numeric value; `float(True)` is 1.0 and `float(False)` 0.0. */
  function ToFloat(v: Value): real
    requires Numeric(v)
  {
    match v
    case Num(n) => n
    case Bool(b) => if b then 1.0 else 0.0
  }

  /** The parameter is either missing or convertible by `float(...)`. */
  predicate NumberOrAbsent(params: Params, key: string)
  {
    key in params ==> Numeric(params[key])
  }

  /** `float(params.get(key, fallback))` for a numeric fallback. */
  function FloatParam(params: Params, key: string, fallback: real): (x: real)
    requires NumberOrAbsent(params, key)
    ensures key !in params ==> x == fallback
    ensures key in params && params[key].Num? ==> x == params[key].n
    ensures key in params && params[key].Bool? ==> x == (if params[key].b then 1.0 else 0.0)
  {
    if key in params then ToFloat(params[key]) else fallback
  }

  /** One piece of an alert message: literal text, or a value shown in an
      f-string placeholder. */
  datatype Piece = Text(s: string) | Shown(v: Value)

  /** An alert message: the f-string's literal parts and placeholders in order. */
  type Message = seq<Piece>

  /** The decimal digits of a natural number, as `str(n)` prints it. */
  function Decimal(n: nat): (s: string)
    ensures |s| >= 1
    ensures |s| == 1 <==> n < 10
    ensures forall i :: 0 <= i < |s| ==> '0' <= s[i] <= '9'
    ensures n > 0 ==> s[0] != '0'
  {
    if n < 10 then [Digit(n)] else Decimal(n / 10) + [Digit(n % 10)]
  }

  function Digit(d: nat): (c: char)
    requires d < 10
    ensures '0' <= c <= '9'
    ensures c as int - '0' as int == d
  {
    ('0' as int + d) as char
  }

  /** The number a string of decimal digits spells, most significant digit
      first. */
  function DigitsValue(s: string): int
  {
    if s == [] then 0 else DigitsValue(s[..|s| - 1]) * 10 + (s[|s| - 1] as int - '0' as int)
  }

  /** Reading the printed digits back gives the number printed. */
  lemma {:induction false} DecimalValue(n: nat)
    ensures DigitsValue(Decimal(n)) == n
  {
    var s := Decimal(n);
    if n >= 10 {
      assert s[..|s| - 1] == Decimal(n / 10);
      DecimalValue(n / 10);
    }
  }

  /** Different numbers print differently. */
  lemma {:induction false} DecimalInjective(a: nat, b: nat)
    requires Decimal(a) == Decimal(b)
    ensures a == b
    decreases a
  {
    if a < 10 && b < 10 {
      assert Decimal(a)[0] == Digit(a) && Decimal(b)[0] == Digit(b);
    } else if a >= 10 && b >= 10 {
      var da, db := Decimal(a / 10), Decimal(b / 10);
      assert Decimal(a) == da + [Digit(a % 10)] && Decimal(b) == db + [Digit(b % 10)];
      assert |da| == |db|;
      assert da == Decimal(a)[..|da|] && db == Decimal(b)[..|db|];
      assert Digit(a % 10) == Decimal(a)[|da|] && Digit(b % 10) == Decimal(b)[|db|];
      DecimalInjective(a / 10, b / 10);
    }
  }
}
