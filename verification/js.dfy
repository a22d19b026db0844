/** The pieces of JavaScript runtime behaviour that the analyze route relies on:
    array reads past the end, the relational operators on numbers, null and
    undefined, truthiness, `Array.prototype.includes`, property-key conversion,
    and how a caught error is turned into text. */
module Js {

  datatype Option<+T> = None | Some(value: T)

  /** One slot of a numeric JSON array as the handler reads it: a number, an
      explicit `null`, or `undefined` (the slot lies past the end of the array). */
  datatype Cell = Num(v: real) | Null | Undefined

  /** `a[i]`: undefined past the end of the array. */
  function At(a: seq<Cell>, i: nat): Cell {
    if i < |a| then a[i] else Undefined
  }

  /** The ToNumber conversion used by `<=` and `>=`: null becomes 0 and
      undefined becomes NaN, represented here by None. */
  function ToNumber(c: Cell): Option<real> {
    match c
    case Num(v) => Some(v)
    case Null => Some(0.0)
    case Undefined => None
  }

  /** `a >= b`; any comparison with NaN is false. */
  predicate AtLeast(a: Cell, b: Cell) {
    ToNumber(a).Some? && ToNumber(b).Some? && ToNumber(a).value >= ToNumber(b).value
  }

  /** `a <= b`; any comparison with NaN is false. */
  predicate AtMost(a: Cell, b: Cell) {
    ToNumber(a).Some? && ToNumber(b).Some? && ToNumber(a).value <= ToNumber(b).value
  }

  /** `if (c)`: 0, null and undefined are falsy, every other number is truthy. */
  predicate Truthy(c: Cell) {
    c.Num? && c.v != 0.0
  }

  /** How the relational operators and truthiness treat null and undefined:
      the operators are converses of each other, the only incomparable pairs
      involve undefined, null compares as 0, and a cell is truthy iff it is a
      number on exactly one side of 0. */
  lemma ComparisonSemantics(a: Cell, b: Cell)
    ensures AtLeast(a, b) <==> AtMost(b, a)
    ensures !AtLeast(a, b) && !AtMost(a, b) <==> a == Undefined || b == Undefined
    ensures AtLeast(a, b) && AtMost(a, b) ==> ToNumber(a) == ToNumber(b)
    ensures a == Null && b.Num? ==> (AtLeast(a, b) <==> b.v <= 0.0) && (AtMost(a, b) <==> 0.0 <= b.v)
    ensures a.Num? && b.Num? ==> (AtLeast(a, b) <==> a.v >= b.v) && (AtMost(a, b) <==> a.v <= b.v)
    ensures Truthy(a) <==> a.Num? && AtLeast(a, Num(0.0)) != AtMost(a, Num(0.0))
  {
  }

  /** `xs.includes(x)`: a front-to-back scan comparing each element with `x`. */
  function Includes(xs: seq<string>, x: string): (r: bool)
    ensures r <==> x in xs
  {
    if |xs| == 0 then false
    else xs[0] == x || Includes(xs[1..], x)
  }

  /** The property name an index expression `o[p]` looks up: an undefined
      `p` is converted to the string "undefined". */
  function PropertyKey(p: Option<string>): string {
    match p
    case Some(s) => s
    case None => "undefined"
  }

  /** A thrown Error object. */
  datatype Exn = Exn(name: string, message: string)

  /** The error `withTimeout` rejects with when the timer wins the race. */
  const TimeoutError := Exn("Error", "timeout")

  /** The TypeError raised by reading property `prop` of undefined (or of null). */
  function ReadError(ofNull: bool, prop: string): Exn {
    Exn("TypeError", "Cannot read properties of " + (if ofNull then "null" else "undefined")
                     + " (reading '" + prop + "')")
  }

  /** `Error.prototype.toString`: name and message joined by ": ", either
      standing alone when the other is empty. */
  function ErrorToString(e: Exn): string {
    if e.name == "" then e.message
    else if e.message == "" then e.name
    else e.name + ": " + e.message
  }

  /** `String(e?.message || e)`: the message when it is non-empty, else the
      error converted to a string. */
  function ErrorText(e: Exn): (r: string)
    ensures e.message != "" ==> r == e.message
    ensures e.message == "" ==> r == e.name
    ensures r == "" <==> e.message == "" && e.name == ""
  {
    if e.message != "" then e.message else ErrorToString(e)
  }

  /** The decimal digits of `n`, as `String(n)` writes an array index. */
  function Decimal(n: nat): string
    decreases n
  {
    var d := ['0', '1', '2', '3', '4', '5', '6', '7', '8', '9'][n % 10];
    if n < 10 then [d] else Decimal(n / 10) + [d]
  }

  /** A compound JSON value the handler passes through without looking inside. */
  datatype Json =
    | JNull
    | JBool(b: bool)
    | JNum(n: real)
    | JStr(s: string)
    | JArr(items: seq<Json>)
    | JObj(fields: map<string, Json>)

  /** Outcome of evaluating an expression: a value, or a thrown error. */
  datatype Completion<+T> = Normal(value: T) | Abrupt(exn: Exn) {

    predicate IsFailure() {
      Abrupt?
    }

    function PropagateFailure<U>(): Completion<U>
      requires Abrupt?
    {
      Abrupt(exn)
    }

    function Extract(): T
      requires Normal?
    {
      value
    }
  }
}
