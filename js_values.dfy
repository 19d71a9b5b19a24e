/** The JavaScript values the prediction handler reads from the inference service's answer, and
    the JavaScript semantics of the expressions it applies to them: property and index access
    (which throws a `TypeError` on `undefined` and `null`), strict comparison with `0`, numeric
    conversion and the truthiness test on request fields. */
module JsValues {
  import opened Options

  /** A value produced by `JSON.parse`, or `undefined`, which is what reading a missing property
      or an index past the end gives. Numbers are idealised as reals. */
  datatype JsValue =
    | Undefined
    | Null
    | Bool(b: bool)
    | Num(n: real)
    | Str(s: string)
    | Arr(items: seq<JsValue>)
    | Obj(props: map<string, JsValue>)

  /** One step of an access expression: `.name` or `[i]`. */
  datatype Key = Prop(name: string) | Index(i: nat)

  /** The completion of an access expression: a value, or a thrown `TypeError`. */
  datatype Eval = Value(v: JsValue) | TypeError

  function DigitChar(d: nat): (c: char)
    requires d < 10
    ensures '0' <= c <= '9' && DigitValue(c) == d
  {
    (('0' as int) + d) as char
  }

  /** The value of a decimal digit. */
  function DigitValue(c: char): (d: int)
    ensures '0' <= c <= '9' ==> 0 <= d < 10
  {
    (c as int) - ('0' as int)
  }

  /** The number a string of decimal digits denotes. */
  function DecimalValue(r: string): (n: int)
    ensures (forall i :: 0 <= i < |r| ==> '0' <= r[i] <= '9') ==> n >= 0
  {
    if r == [] then 0 else DecimalValue(r[..|r| - 1]) * 10 + DigitValue(r[|r| - 1])
  }

  /** `String(n)`: the property name under which an object stores index `n`. */
  function Decimal(n: nat): (r: string)
    ensures |r| >= 1 && forall i :: 0 <= i < |r| ==> '0' <= r[i] <= '9'
  {
    if n < 10 then [DigitChar(n)] else Decimal(n / 10) + [DigitChar(n % 10)]
  }

  /** The name of index `n` denotes `n`, and it has no leading zero, so distinct indices have
      distinct names. */
  lemma {:induction false} DecimalRoundTrip(n: nat)
    ensures DecimalValue(Decimal(n)) == n
    ensures Decimal(n)[0] != '0' || n == 0
  {
    if n >= 10 {
      DecimalRoundTrip(n / 10);
      var r := Decimal(n / 10) + [DigitChar(n % 10)];
      assert r[..|r| - 1] == Decimal(n / 10);
    }
  }

  /** `v.name` or `v[i]`. Reading anything from `undefined` or `null` throws; an array or a
      string yields its element (a one-character string) when the index is in range; an object
      yields the property of that name (an index is read as its decimal name); everything else
      reads as `undefined`. Named properties of arrays and strings read as `undefined`: the
      only name the handler reads from one is `values`, which on an array is the built-in
      iterator method, and the next index on either result yields no value to the handler. */
  function Get(v: JsValue, key: Key): (r: Eval)
    ensures r == TypeError <==> v == Undefined || v == Null
    ensures v.Arr? && key.Index? && key.i < |v.items| ==> r == Value(v.items[key.i])
    ensures v.Obj? && key.Prop? && key.name in v.props ==> r == Value(v.props[key.name])
  {
    match v
    case Undefined => TypeError
    case Null => TypeError
    case Arr(items) => Value(if key.Index? && key.i < |items| then items[key.i] else Undefined)
    case Str(s) => Value(if key.Index? && key.i < |s| then Str([s[key.i]]) else Undefined)
    case Obj(props) =>
      var name := if key.Prop? then key.name else Decimal(key.i);
      Value(if name in props then props[name] else Undefined)
    case _ => Value(Undefined)
  }

  /** `v` followed by the accesses `keys`, left to right; the first `TypeError` ends it. */
  function Path(v: JsValue, keys: seq<Key>): (r: Eval)
    ensures keys != [] && Get(v, keys[0]) == TypeError ==> r == TypeError
    decreases |keys|
  {
    if keys == [] then Value(v)
    else match Get(v, keys[0])
      case TypeError => TypeError
      case Value(w) => Path(w, keys[1..])
  }

  /** Evaluating `a` then `b` is evaluating `a + b`. */
  lemma {:induction false} PathAppend(v: JsValue, a: seq<Key>, b: seq<Key>)
    ensures Path(v, a + b) == match Path(v, a) { case TypeError => TypeError case Value(w) => Path(w, b) }
    decreases |a|
  {
    if a == [] {
      assert a + b == b;
    } else {
      assert (a + b)[0] == a[0];
      assert (a + b)[1..] == a[1..] + b;
      match Get(v, a[0]) {
        case TypeError =>
        case Value(w) => PathAppend(w, a[1..], b);
      }
    }
  }

  /** A chain throws when one of its steps throws: if the first `j` accesses give a value and
      access `j` throws on it, the whole chain throws. */
  lemma PathThrowsAtStep(v: JsValue, keys: seq<Key>, j: nat)
    requires j < |keys|
    requires Path(v, keys[..j]).Value? && Get(Path(v, keys[..j]).v, keys[j]) == TypeError
    ensures Path(v, keys) == TypeError
  {
    assert keys == keys[..j] + keys[j..];
    PathAppend(v, keys[..j], keys[j..]);
    assert keys[j..][0] == keys[j];
  }

  /** `v === 0`: only the number zero is strictly equal to `0`. */
  predicate IsZero(v: JsValue) {
    v == Num(0.0)
  }

  /** Whether converting `v` to a primitive throws a `TypeError`. A parsed object inherits a
      `valueOf` that gives back the object itself, so the conversion falls to `toString`; an own
      `toString` property is never a function in parsed JSON, which leaves no method to call.
      An array converts by joining its elements, each converted to a string, so it throws when
      one of them does. */
  predicate ConversionThrows(v: JsValue)
    decreases v
  {
    match v
    case Obj(props) => "toString" in props
    case Arr(items) => exists i :: 0 <= i < |items| && ConversionThrows(items[i])
    case _ => false
  }

  /** `Number(v)` for a value whose conversion does not throw, as far as it needs no parsing;
      `None` stands for `NaN`. An object without its own `toString` converts through the string
      `"[object Object]"`, which is `NaN`. */
  function ToNumber(v: JsValue): (r: Option<real>)
    requires !ConversionThrows(v)
    ensures v.Num? ==> r == Some(v.n)
    ensures v == Null ==> r == Some(0.0)
    ensures v.Bool? ==> r == Some(if v.b then 1.0 else 0.0)
    ensures v == Undefined || v.Obj? ==> r == None
  {
    match v
    case Num(n) => Some(n)
    case Null => Some(0.0)
    case Bool(b) => Some(if b then 1.0 else 0.0)
    case _ => None
  }

  /** The truthiness test `!field` applied to a request field that is absent or a string: the
      empty string is as falsy as a missing field. */
  predicate Truthy(field: Option<string>) {
    field.Some? && field.value != ""
  }
}
