/** JavaScript values as the backend receives them in request bodies,
    query strings and path parameters, with the few coercions the core
    relies on: truthiness, `String(v)` and `Number#toString`. */
module JsValues {

  datatype Option<+T> = None | Some(value: T)

  /** A JSON-ish JavaScript value. Numbers are integers; `NaN` is the one
      non-integral number the core inspects. */
  datatype Value =
    | Undefined
    | Null
    | Bool(b: bool)
    | Num(n: int)
    | NaN
    | Str(s: string)
    | Arr(items: seq<Value>)
    | Obj(fields: map<string, Value>)

  /** `obj[key]`: a missing key reads as `undefined`. */
  function Get(data: map<string, Value>, key: string): Value
  {
    if key in data then data[key] else Undefined
  }

  /** JavaScript truthiness of an optional string (`undefined` and `""` are falsy). */
  predicate TruthyStr(o: Option<string>) {
    o.Some? && o.value != ""
  }

  /** JavaScript truthiness of an optional number (`undefined` and `0` are falsy). */
  predicate TruthyInt(o: Option<int>) {
    o.Some? && o.value != 0
  }

  function DigitChar(d: int): char
    requires 0 <= d < 10
  {
    "0123456789"[d]
  }

  /** Decimal form of a natural number, most significant digit first. */
  function NatToString(n: nat): (r: string)
    ensures |r| >= 1
    ensures forall i :: 0 <= i < |r| ==> '0' <= r[i] <= '9'
    decreases n
  {
    if n < 10 then [DigitChar(n)] else NatToString(n / 10) + [DigitChar(n % 10)]
  }

  /** `${n}` for an integer `n`. */
  function IntToString(n: int): (r: string)
    ensures |r| >= 1
  {
    if n < 0 then "-" + NatToString(-n) else NatToString(n)
  }

  /** `Array.prototype.join(sep)` over strings. */
  function Join(parts: seq<string>, sep: string): string
  {
    if |parts| == 0 then ""
    else if |parts| == 1 then parts[0]
    else parts[0] + sep + Join(parts[1..], sep)
  }

  /** `String(v)`, the conversion `RegExp#test` applies to its argument.
      Array elements that are `null` or `undefined` become empty strings. */
  function ToJsString(v: Value): string
  {
    match v
    case Undefined => "undefined"
    case Null => "null"
    case Bool(b) => if b then "true" else "false"
    case Num(n) => IntToString(n)
    case NaN => "NaN"
    case Str(s) => s
    case Arr(items) => Join(ElementStrings(items), ",")
    case Obj(_) => "[object Object]"
  }

  function ElementStrings(items: seq<Value>): (r: seq<string>)
    ensures |r| == |items|
  {
    if |items| == 0 then []
    else
      [if items[0].Undefined? || items[0].Null? then "" else ToJsString(items[0])]
      + ElementStrings(items[1..])
  }

  predicate StartsWith(s: string, prefix: string) {
    |prefix| <= |s| && s[..|prefix|] == prefix
  }

  /** Index of the first space in `s`, or `|s|` when there is none. */
  function SpaceIndex(s: string): (i: nat)
    ensures i <= |s|
    ensures i < |s| ==> s[i] == ' '
    ensures forall j :: 0 <= j < i ==> s[j] != ' '
  {
    if |s| == 0 then 0
    else if s[0] == ' ' then 0
    else 1 + SpaceIndex(s[1..])
  }

  /** `s.split(' ')[1]`: the piece between the first and the second space,
      `undefined` (`None`) when `s` holds no space. */
  function SecondPiece(s: string): (r: Option<string>)
    ensures r.None? <==> ' ' !in s
    ensures r.Some? ==> ' ' !in r.value
  {
    var i := SpaceIndex(s);
    if i == |s| then None
    else
      var rest := s[i + 1..];
      var j := SpaceIndex(rest);
      Some(rest[..j])
  }

  /** A header built as `scheme + " " + token`, with no space in the scheme
      or the token, splits back into that token. */
  lemma {:induction false} SecondPieceOfJoined(scheme: string, token: string)
    requires ' ' !in scheme && ' ' !in token
    ensures SecondPiece(scheme + " " + token) == Some(token)
  {
    var s := scheme + " " + token;
    assert s == scheme + (" " + token);
    SpaceIndexOfPrefixed(scheme, " " + token);
    assert SpaceIndex(s) == |scheme|;
    assert s[|scheme| + 1..] == token;
    SpaceIndexNone(token);
    assert token[..|token|] == token;
  }

  lemma {:induction false} SpaceIndexOfPrefixed(a: string, b: string)
    requires ' ' !in a
    ensures SpaceIndex(a + b) == |a| + SpaceIndex(b)
  {
    if |a| > 0 {
      assert a[0] in a;
      assert (a + b)[1..] == a[1..] + b;
      assert forall c :: c in a[1..] ==> c in a;
      SpaceIndexOfPrefixed(a[1..], b);
    } else {
      assert a + b == b;
    }
  }

  lemma {:induction false} SpaceIndexNone(a: string)
    requires ' ' !in a
    ensures SpaceIndex(a) == |a|
  {
    if |a| > 0 {
      assert a[0] in a;
      assert forall c :: c in a[1..] ==> c in a;
      SpaceIndexNone(a[1..]);
    }
  }
}
