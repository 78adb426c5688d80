/**
 * Compile-time values: what the embedded expression evaluator can hand back
 * to the compiler, with JavaScript's truthiness and numeric coercion as far as
 * the compiler uses them.
 */
module Values {
  import opened Wrappers
  import opened Text
  import opened Tokenizer

  datatype Value =
    | VUndefined
    | VBool(b: bool)
    | VNum(n: int)
    | VNaN
    | VStr(s: string)
    | VArr(items: seq<Value>)
    | VObject   // any other object (the configuration object, a function, ...)

  /** The compile-time environment: one mutable mapping from identifier to value. */
  type Env = map<string, Value>

  /** JavaScript truthiness. */
  predicate Truthy(v: Value) {
    match v
    case VUndefined => false
    case VBool(b) => b
    case VNum(n) => n != 0
    case VNaN => false
    case VStr(s) => s != ""
    case VArr(_) => true
    case VObject => true
  }

  datatype Number = Num(i: int) | NaN

  /**
   * Numeric coercion (`x - 1`) of a value that is not an array. Strings are
   * coerced only when they hold a plain decimal natural (or nothing).
   */
  function ToNumber(v: Value): Number {
    match v
    case VBool(b) => Num(if b then 1 else 0)
    case VNum(n) => Num(n)
    case VStr(s) =>
      var t := Trim(s);
      if t == "" then Num(0)
      else if ParseNat(t).Some? then Num(ParseNat(t).value)
      else NaN
    case _ => NaN
  }

  /**
   * The evaluator the compiler consults for compile-time conditions and loop
   * bounds, given the expression, the environment and the macro arguments
   * behind `type(i)`; `None` stands for an evaluation that threw.
   */
  type Oracle = (string, Env, MacroArgs) -> Option<Value>

  /** Evaluation that fails open: an expression that throws counts as `true`. */
  function Evaluate(oracle: Oracle, expr: string, env: Env, args: MacroArgs): (v: Value)
    ensures oracle(expr, env, args).None? ==> v == VBool(true) && Truthy(v)
    ensures oracle(expr, env, args).Some? ==> v == oracle(expr, env, args).value
  {
    match oracle(expr, env, args)
    case None => VBool(true)
    case Some(v) => v
  }
}
