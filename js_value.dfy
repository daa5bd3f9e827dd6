/** The slice of JavaScript's value semantics that the controllers depend on:
    truthiness (`if (!loggedIn)`), strict equality (`userId === owner`),
    the `||` operator (`categoryId || 1`), optional property access
    (`comment?.props.userId`) and the text a template literal produces
    (`/poems/${id}`). */
module JsValue {
  import opened Wrappers

  /** A JavaScript value. Numbers are integers; `NaN` is kept apart because
      `getId()` yields it for a non-numeric path segment. */
  datatype Value =
    | Undefined
    | Null
    | Bool(b: bool)
    | Num(n: int)
    | NaN
    | Str(s: string)
    | Arr(items: seq<Value>)
    | Obj(fields: map<string, Value>)

  /** A plain object such as a row's `props`. */
  type Props = map<string, Value>

  /** What `Number(...)` can give: an integer or NaN. */
  type Number = v: Value | v.Num? || v.NaN? witness NaN

  /** `!!v` in JavaScript. */
  predicate Truthy(v: Value) {
    match v
    case Undefined => false
    case Null => false
    case NaN => false
    case Bool(b) => b
    case Num(n) => n != 0
    case Str(s) => s != ""
    case Arr(_) => true
    case Obj(_) => true
  }

  /** `a === b`: primitives compare by value, NaN equals nothing, and two
      objects or arrays built separately are distinct references. */
  predicate StrictEquals(a: Value, b: Value) {
    !a.NaN? && !a.Arr? && !a.Obj? && a == b
  }

  /** `a || b`: the first operand when it is truthy, the second otherwise. */
  function Or(a: Value, b: Value): (r: Value)
    ensures Truthy(r) <==> Truthy(a) || Truthy(b)
    ensures Truthy(a) ==> r == a
    ensures !Truthy(a) ==> r == b
  {
    if Truthy(a) then a else b
  }

  /** `o.k` on a plain object: a missing key reads as `undefined`. */
  function Prop(o: Props, k: string): Value {
    if k in o then o[k] else Undefined
  }

  /** `x?.props.k` where `x` may be `null`. */
  function OptProp(o: Option<Props>, k: string): Value {
    match o
    case None => Undefined
    case Some(p) => Prop(p, k)
  }

  /** `x?.props` where `x` may be `null`. */
  function OptProps(o: Option<Props>): Value {
    match o
    case None => Undefined
    case Some(p) => Obj(p)
  }

  /** `rows.map((row) => ({...row.props}))`: one object per row, in order. */
  function Objects(rows: seq<Props>): (r: seq<Value>)
    ensures |r| == |rows| && forall i :: 0 <= i < |r| ==> r[i] == Obj(rows[i])
  {
    if rows == [] then [] else [Obj(rows[0])] + Objects(rows[1..])
  }

  function Digit(d: nat): char
    requires d < 10
  {
    "0123456789"[d]
  }

  predicate IsDigit(c: char) {
    '0' <= c <= '9'
  }

  /** The number a string of decimal digits denotes, read left to right. */
  function DecimalValue(s: string): nat
    requires forall i :: 0 <= i < |s| ==> IsDigit(s[i])
  {
    if s == [] then 0
    else
      var last := s[|s| - 1];
      assert IsDigit(last);
      DecimalValue(s[..|s| - 1]) * 10 + (last as int - '0' as int)
  }

  /** The decimal text of a natural number, without leading zeros. */
  function NatText(n: nat): (r: string)
    ensures |r| >= 1 && (n >= 10 ==> |r| >= 2)
    ensures forall i :: 0 <= i < |r| ==> IsDigit(r[i])
    ensures r[0] == '0' ==> n == 0
    ensures DecimalValue(r) == n
  {
    if n < 10 then [Digit(n)] else NatText(n / 10) + [Digit(n % 10)]
  }

  lemma DigitInjective(x: nat, y: nat)
    requires x < 10 && y < 10 && Digit(x) == Digit(y)
    ensures x == y
  {
  }

  /** A number is fixed by its last decimal digit and the rest. */
  lemma DecimalParts(a: nat, b: nat)
    requires a / 10 == b / 10 && a % 10 == b % 10
    ensures a == b
  {
  }

  /** Distinct numbers print differently, so a redirect such as
      `/poems/${id}` names exactly one id. */
  lemma {:induction false} NatTextInjective(a: nat, b: nat)
    requires NatText(a) == NatText(b)
    ensures a == b
  {
    if a < 10 && b < 10 {
      DigitInjective(a, b);
    } else if a >= 10 && b >= 10 {
      var ta, tb := NatText(a), NatText(b);
      var ha, hb := NatText(a / 10), NatText(b / 10);
      assert ta == ha + [Digit(a % 10)] && tb == hb + [Digit(b % 10)];
      assert |ha| == |hb|;
      assert ha == ta[..|ha|] && hb == tb[..|hb|];
      DigitInjective(a % 10, b % 10);
      NatTextInjective(a / 10, b / 10);
      DecimalParts(a, b);
    }
  }

  /** The decimal text of an integer: a minus sign exactly for negatives. */
  function IntText(n: int): (r: string)
    ensures |r| >= 1
    ensures r[0] == '-' <==> n < 0
  {
    if n < 0 then "-" + NatText(-n) else NatText(n)
  }

  /** Below zero, the text is a minus sign followed by the magnitude. */
  lemma NegativeText(n: int)
    requires n < 0
    ensures IntText(n)[1..] == NatText(-n)
  {
    assert IntText(n) == "-" + NatText(-n);
  }

  /** Equal texts have equal signs. */
  lemma SameSign(a: int, b: int)
    requires IntText(a) == IntText(b)
    ensures a < 0 <==> b < 0
  {
    assert IntText(a)[0] == IntText(b)[0];
  }

  /** Distinct integers print differently. */
  lemma {:induction false} IntTextInjective(a: int, b: int)
    requires IntText(a) == IntText(b)
    ensures a == b
  {
    SameSign(a, b);
    if a < 0 {
      NegativeText(a);
      NegativeText(b);
      NatTextInjective(-a, -b);
    } else {
      NatTextInjective(a, b);
    }
  }

  /** `String(v)`, the text `${v}` inserts into a template literal. An array
      joins its elements with commas, writing `null` and `undefined` as "". */
  function Text(v: Value): string
    decreases v, 1
  {
    match v
    case Undefined => "undefined"
    case Null => "null"
    case Bool(b) => if b then "true" else "false"
    case Num(n) => IntText(n)
    case NaN => "NaN"
    case Str(s) => s
    case Arr(items) => Join(v, items)
    case Obj(_) => "[object Object]"
  }

  function Join(ghost whole: Value, items: seq<Value>): string
    requires forall x :: x in items ==> x < whole
    decreases whole, 0, |items|
  {
    if items == [] then ""
    else
      assert items[0] in items;
      var head := if items[0].Undefined? || items[0].Null? then "" else Text(items[0]);
      if |items| == 1 then head
      else
        assert forall x :: x in items[1..] ==> x in items;
        head + "," + Join(whole, items[1..])
  }
}
