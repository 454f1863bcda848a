/** JavaScript values as the core handles them, and the foreign functions the
    core calls but does not define (parsing, formatting, hashing). */
module Js {

  datatype Option<+T> = None | Some(value: T)

  /** A JavaScript number. The infinities are not modelled; `NaN` is. */
  datatype Number = Finite(r: real) | NaN

  /** A JavaScript value. `Fn` is a function value, known only by its source text. */
  datatype Val = Undefined | Bool(b: bool) | Num(n: Number) | Str(s: string) | Fn(code: string)

  /** JavaScript truthiness: `false`, `0`, `NaN`, `""` and `undefined` are falsy. */
  predicate Truthy(v: Val) {
    match v
    case Undefined => false
    case Bool(b) => b
    case Num(n) => n.Finite? && n.r != 0.0
    case Str(s) => s != ""
    case Fn(_) => true
  }

  /** The value of `a || b`. */
  function Or(a: Val, b: Val): Val {
    if Truthy(a) then a else b
  }

  function Real(r: real): Val {
    Num(Finite(r))
  }

  /** The foreign functions the core relies on. Each is a parameter of the
      model rather than a definition of its own. */
  datatype Runtime = Runtime(
    parseFloatText: string -> Number,         // parseFloat(s)
    parseIntText: string -> Option<int>,      // parseInt(s), None for NaN
    toNumberText: string -> Number,           // Number(s)
    numberText: real -> string,               // String(x) for a finite x
    toPrecision: (real, Val) -> string,       // x.toPrecision(p) for a finite x and an accepted p
    md5Hex: string -> string,                 // md5 digest in hex
    millis: Val -> Option<int>,               // new Date(v).getTime(), None for an invalid date
    // The psychrometric formulas past their argument checks; None when they
    // raise (no convergence, a value outside the equations' range).
    tWetBulbFromRelHum: (Number, Number, Number) -> Option<Number>,
    moistAirVolume: (Number, Number, Number) -> Option<Number>,
    humRatioFromRelHum: (Number, Number, Number) -> Option<Number>,
    tDewPointFromRelHum: (Number, Number) -> Option<Number>)

  /** String(v), as used for property keys and for `toString()`. */
  function ToString(v: Val, rt: Runtime): string {
    match v
    case Undefined => "undefined"
    case Bool(b) => if b then "true" else "false"
    case Num(n) => if n.NaN? then "NaN" else rt.numberText(n.r)
    case Str(s) => s
    case Fn(code) => code
  }

  /** parseFloat(v): the argument is first converted to a string. */
  function ParseFloat(v: Val, rt: Runtime): Number {
    match v
    case Num(n) => n
    case Str(s) => rt.parseFloatText(s)
    case Fn(code) => rt.parseFloatText(code)
    case _ => NaN
  }

  /** The unary numeric conversion used by `-` and `+` on non-strings. */
  function ToNumber(v: Val, rt: Runtime): Number {
    match v
    case Undefined => NaN
    case Bool(b) => Finite(if b then 1.0 else 0.0)
    case Num(n) => n
    case Str(s) => rt.toNumberText(s)
    case Fn(_) => NaN
  }

  /** `parseFloat(v) || 0`: what a value adds to a sum. */
  function Contribution(v: Val, rt: Runtime): (r: real)
    ensures ParseFloat(v, rt).NaN? ==> r == 0.0
    ensures ParseFloat(v, rt).Finite? ==> r == ParseFloat(v, rt).r
  {
    var n := ParseFloat(v, rt);
    if n.Finite? && n.r != 0.0 then n.r else 0.0
  }

  function Add(a: Number, b: Number): Number {
    if a.Finite? && b.Finite? then Finite(a.r + b.r) else NaN
  }

  function Sub(a: Number, b: Number): Number {
    if a.Finite? && b.Finite? then Finite(a.r - b.r) else NaN
  }

  function Scale(a: Number, k: real): Number {
    if a.Finite? then Finite(a.r * k) else NaN
  }

  /** Whether `toPrecision(p)` accepts a defined `p`: its integer part must
      lie in 1..100, which NaN fails. */
  predicate PrecisionOk(p: Val, rt: Runtime) {
    var n := ToNumber(p, rt);
    n.Finite? && 1.0 <= n.r < 101.0
  }

  /** x.toPrecision(p), None for the RangeError: an undefined `p` prints the
      number as `String(x)`, a non-finite number prints as its name whatever
      `p` is, and otherwise `p` must be accepted. */
  function Rounded(n: Number, digits: Val, rt: Runtime): (r: Option<string>)
    ensures r.None? <==> n.Finite? && !digits.Undefined? && !PrecisionOk(digits, rt)
    ensures n.NaN? ==> r == Some("NaN")
  {
    if digits.Undefined? then Some(if n.NaN? then "NaN" else rt.numberText(n.r))
    else if n.NaN? then Some("NaN")
    else if PrecisionOk(digits, rt) then Some(rt.toPrecision(n.r, digits))
    else None
  }
}
