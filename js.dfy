/** The slice of JavaScript's value semantics the site's logic depends on: JSON
    documents (plus `undefined`), property reads that throw a TypeError on
    `undefined`/`null`, truthiness and the `||` operator, and the decimal
    rendering of a number inside a template literal. */
module Js {

  /** An optional value; failure-compatible so decoders can use `:-`. */
  datatype Option<+T> = None | Some(value: T) {
    predicate IsFailure() { None? }
    function PropagateFailure<U>(): Option<U> requires None? { None }
    function Extract(): T requires Some? { value }
  }

  /** The outcome of evaluating an expression that may throw a TypeError. */
  datatype Result<+T> = Ok(value: T) | TypeError {
    predicate IsFailure() { TypeError? }
    function PropagateFailure<U>(): Result<U> requires TypeError? { TypeError }
    function Extract(): T requires Ok? { value }
  }

  /** A parsed JSON value, or `undefined`. Numbers are integers here: the
      document's numbers are only month numbers and list lengths. An object is
      a map from keys to values, so key order is not represented. */
  datatype Value =
    | Undefined
    | Null
    | Bool(b: bool)
    | Num(n: int)
    | Str(s: string)
    | Arr(items: seq<Value>)
    | Obj(fields: map<string, Value>)

  type Path = seq<string>

  /** `v.key`: throws on `undefined` and `null`; `length` of an array or a
      string is its length; a missing key, or any other key of a non-object,
      reads as `undefined`. */
  function Prop(v: Value, key: string): (r: Result<Value>)
    ensures r.TypeError? <==> v.Undefined? || v.Null?
    ensures v.Obj? ==> r == Ok(if key in v.fields then v.fields[key] else Undefined)
    ensures (v.Arr? || v.Str?) && key == "length" ==>
              r == Ok(Num(if v.Arr? then |v.items| else |v.s|))
  {
    match v
    case Undefined => TypeError
    case Null => TypeError
    case Obj(m) => Ok(if key in m then m[key] else Undefined)
    case Arr(items) => Ok(if key == "length" then Num(|items|) else Undefined)
    case Str(s) => Ok(if key == "length" then Num(|s|) else Undefined)
    case _ => Ok(Undefined)
  }

  /** `v.k1.k2...kn`, left to right, every step an ordinary (non-optional) read. */
  function PropPath(v: Value, path: Path): Result<Value>
    decreases |path|
  {
    if path == [] then Ok(v)
    else
      var w :- Prop(v, path[0]);
      PropPath(w, path[1..])
  }

  /** `x.map(...)` or `[...x]` on a declared array: the elements of an array;
      a TypeError for anything else (`undefined.map`, or a value without a
      callable `map`). */
  function Elements(v: Value): (r: Result<seq<Value>>)
    ensures r.Ok? <==> v.Arr?
    ensures r.Ok? ==> r.value == v.items
  {
    if v.Arr? then Ok(v.items) else TypeError
  }

  /** The list a page reads at `path` of the document and calls `.map` on. */
  function ListAt(doc: Value, path: Path): Result<seq<Value>> {
    var v :- PropPath(doc, path);
    Elements(v)
  }

  /** JavaScript truthiness. */
  predicate Truthy(v: Value) {
    match v
    case Undefined => false
    case Null => false
    case Bool(b) => b
    case Num(n) => n != 0
    case Str(s) => s != ""
    case _ => true
  }

  /** `a || b`. */
  function Or(a: Value, b: Value): (r: Value)
    ensures Truthy(a) ==> r == a
    ensures !Truthy(a) ==> r == b
  {
    if Truthy(a) then a else b
  }

  /** The digit character for 0..9. */
  function DigitChar(d: nat): (c: char)
    requires d < 10
    ensures '0' <= c <= '9'
  {
    "0123456789"[d]
  }

  predicate IsDigit(c: char) { '0' <= c <= '9' }

  /** `${n}` for a non-negative integer: its shortest decimal rendering. */
  function Decimal(n: nat): (s: string)
    ensures |s| >= 1
    ensures forall i :: 0 <= i < |s| ==> IsDigit(s[i])
    ensures |s| > 1 ==> s[0] != '0'
  {
    if n < 10 then [DigitChar(n)] else Decimal(n / 10) + [DigitChar(n % 10)]
  }

  /** Reads a string of decimal digits back as a number. */
  function ParseDecimal(s: string): nat
    requires forall i :: 0 <= i < |s| ==> IsDigit(s[i])
  {
    if s == [] then 0
    else
      assert IsDigit(s[|s| - 1]);
      10 * ParseDecimal(s[..|s| - 1]) + ((s[|s| - 1] as int) - ('0' as int))
  }

  /** Rendering a number in decimal loses nothing: it reads back as itself. */
  lemma {:induction false} DecimalRoundTrip(n: nat)
    ensures ParseDecimal(Decimal(n)) == n
  {
    var s := Decimal(n);
    if n >= 10 {
      DecimalRoundTrip(n / 10);
      assert s[..|s| - 1] == Decimal(n / 10);
    }
  }

  /** Distinct numbers render as distinct strings. */
  lemma DecimalInjective(m: nat, n: nat)
    requires Decimal(m) == Decimal(n)
    ensures m == n
  {
    DecimalRoundTrip(m);
    DecimalRoundTrip(n);
  }
}
