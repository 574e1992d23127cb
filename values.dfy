/** Runtime values (src/runtime/values.ts) and the fatal errors of evaluation. */
module Values {

  /** The four tagged variants. ReturnValue carries a `return` outward through
      the ordinary value channel; every consumer unwraps it. */
  datatype RuntimeValue =
    | NullValue
    | IntValue(n: int)
    | BooleanValue(b: bool)
    | ReturnValue(wrapped: RuntimeValue)

  /** The `type` tag of a value. */
  function ValueType(v: RuntimeValue): (t: string)
    ensures t in {"null", "int", "boolean", "return"}
    ensures t == "null" <==> v.NullValue?
    ensures t == "int" <==> v.IntValue?
    ensures t == "boolean" <==> v.BooleanValue?
    ensures t == "return" <==> v.ReturnValue?
  {
    match v
    case NullValue => "null"
    case IntValue(_) => "int"
    case BooleanValue(_) => "boolean"
    case ReturnValue(_) => "return"
  }

  /** Every one of the four tags is carried by some value. */
  lemma AllFourTags()
    ensures ValueType(NullValue) == "null" && ValueType(IntValue(0)) == "int"
    ensures ValueType(BooleanValue(true)) == "boolean" && ValueType(ReturnValue(NullValue)) == "return"
  {
  }

  /** The fatal errors of the runtime. The source stops the process on each of
      these (a thrown string or an uncaught exception). */
  datatype EvalError =
    | AlreadyDeclared(name: string)            // declareVar on a name bound in this scope
    | Unresolved(name: string)                 // resolve ran out of parents
    | FunctionAlreadyDeclared(name: string)    // declareFun, by analogy with declareVar
    | UnresolvedFunction(name: string)         // lookupFun, by analogy with resolve
    | ConditionNotBoolean                      // evalIfExpr's check
    | OutOfFuel                                // the evaluator's fuel bound on calls
}
