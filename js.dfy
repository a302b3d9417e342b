/** The slice of JavaScript's value model that the request handlers touch:
    JSON request-body values, numbers with NaN and the infinities, truthiness,
    and the two number conversions the code relies on, kept abstract. */
module Js {

  datatype Option<+T> = None | Some(value: T)

  /** A JavaScript number as the handlers see it: NaN, an infinity, or a finite value. */
  datatype Number = NaN | NegInfinity | Finite(value: real) | PosInfinity

  /** `n < bound` in JavaScript (false for NaN). */
  predicate Below(n: Number, bound: real)
  {
    match n
    case NaN => false
    case NegInfinity => true
    case Finite(x) => x < bound
    case PosInfinity => false
  }

  /** `n > bound` in JavaScript (false for NaN). */
  predicate Above(n: Number, bound: real)
  {
    match n
    case NaN => false
    case NegInfinity => false
    case Finite(x) => x > bound
    case PosInfinity => true
  }

  /** `n >= bound` in JavaScript (false for NaN). */
  predicate AtLeast(n: Number, bound: real)
  {
    match n
    case NaN => false
    case NegInfinity => false
    case Finite(x) => x >= bound
    case PosInfinity => true
  }

  /** `n <= bound` in JavaScript (false for NaN). */
  predicate AtMost(n: Number, bound: real)
  {
    match n
    case NaN => false
    case NegInfinity => true
    case Finite(x) => x <= bound
    case PosInfinity => false
  }

  /** A finite number in the closed interval [lo, hi]. */
  predicate Within(n: Number, lo: real, hi: real)
  {
    n.Finite? && lo <= n.value <= hi
  }

  /** Passing both `isNaN(n) || n < lo` and `n > hi` is the same as lying in [lo, hi];
      so is passing Mongoose's `n >= lo` and `n <= hi`. */
  lemma WithinIff(n: Number, lo: real, hi: real)
    requires lo <= hi
    ensures Within(n, lo, hi) <==> !n.NaN? && !Below(n, lo) && !Above(n, hi)
    ensures Within(n, lo, hi) <==> AtLeast(n, lo) && AtMost(n, hi)
  {
  }

  /** A field of a JSON request body: the client sent a string or a number. */
  datatype Value = Str(text: string) | Num(number: Number)

  /** A parsed JSON request body (`req.body`); an absent key is `undefined`. */
  type Body = map<string, Value>

  /** The runtime's conversions, which the model does not interpret:
      `parseFloat` on a string, `Number.prototype.toString`, `Number(s)` (the
      conversion Mongoose applies to a string given for a Number path), and
      whether `new RegExp(s, 'i')` accepts `s` as a pattern rather than throwing
      a SyntaxError. */
  datatype Runtime = Runtime(parseFloat: string -> Number, numberToString: Number -> string,
                             toNumber: string -> Number, validPattern: string -> bool)

  /** `v.toString()` (also Mongoose's cast of a value to a String path). */
  function ToText(rt: Runtime, v: Value): string
  {
    match v
    case Str(s) => s
    case Num(n) => rt.numberToString(n)
  }

  /** `parseFloat(v)`: the argument is converted to a string first. */
  function ParseFloat(rt: Runtime, v: Value): Number
  {
    rt.parseFloat(ToText(rt, v))
  }

  /** JavaScript truthiness: the empty string, 0 and NaN are falsy. */
  predicate Truthy(v: Value)
  {
    match v
    case Str(s) => s != ""
    case Num(n) => n != NaN && n != Finite(0.0)
  }
}
