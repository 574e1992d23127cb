/** Properties of scope chains: what declaring, assigning and looking up do,
    and what they leave alone. */
module EnvironmentProperties {
  import opened Wrappers
  import opened Ast
  import opened Values
  import opened Environments

  /** resolve picks the innermost binding scope: any scope that binds the
      name with no binding scope before it is the one resolve returns. */
  lemma {:induction false} ResolveIndexNearest(c: Chain, name: string, k: nat)
    requires k < |c| && name in c[k].variables
    requires forall j :: 0 <= j < k ==> name !in c[j].variables
    ensures ResolveIndex(c, name) == Some(k)
  {
    if k > 0 {
      ResolveIndexNearest(c[1..], name, k - 1);
    }
  }

  /** Right after declareVar(n, v), lookupVar(n) gives v. */
  lemma DeclareThenLookup(c: Chain, name: string, v: RuntimeValue)
    requires |c| > 0 && DeclareVarIn(c, name, v).Ok?
    ensures LookupVarIn(DeclareVarIn(c, name, v).value, name) == Ok(v)
  {
    ResolveIndexNearest(DeclareVarIn(c, name, v).value, name, 0);
  }

  /** declareVar leaves the lookup of every other name as it was. */
  lemma {:induction false} DeclareKeepsOtherNames(c: Chain, name: string, v: RuntimeValue, other: string)
    requires |c| > 0 && DeclareVarIn(c, name, v).Ok? && other != name
    ensures LookupVarIn(DeclareVarIn(c, name, v).value, other) == LookupVarIn(c, other)
  {
    var d := DeclareVarIn(c, name, v).value;
    assert d[0].variables == c[0].variables[name := v];
    if other in c[0].variables {
      ResolveIndexNearest(c, other, 0);
      ResolveIndexNearest(d, other, 0);
    } else {
      assert d[1..] == c[1..];
      assert ResolveIndex(d, other) == (match ResolveIndex(d[1..], other) case None => None case Some(k) => Some(k + 1));
    }
  }

  /** declareVar only checks the innermost scope: a binding of the same name
      in an enclosing scope is shadowed, not refused, and the enclosing scopes
      are untouched. */
  lemma Shadowing(outer: Chain, name: string, v: RuntimeValue)
    requires LookupVarIn(outer, name).Ok?
    ensures DeclareVarIn([EmptyScope] + outer, name, v).Ok?
    ensures LookupVarIn(DeclareVarIn([EmptyScope] + outer, name, v).value, name) == Ok(v)
    ensures DeclareVarIn([EmptyScope] + outer, name, v).value[1..] == outer
  {
    DeclareThenLookup([EmptyScope] + outer, name, v);
  }

  /** A second declaration of a name in the same scope is refused. */
  lemma RedeclarationRefused(c: Chain, name: string, v: RuntimeValue, w: RuntimeValue)
    requires |c| > 0 && DeclareVarIn(c, name, v).Ok?
    ensures DeclareVarIn(DeclareVarIn(c, name, v).value, name, w) == Err(AlreadyDeclared(name))
  {
  }

  /** After assignVar(n, v), lookupVar(n) gives v, and the same scopes bind
      the same names as before. */
  lemma {:induction false} AssignThenLookup(c: Chain, name: string, v: RuntimeValue)
    requires AssignVarIn(c, name, v).Ok?
    ensures |AssignVarIn(c, name, v).value| == |c|
    ensures forall k :: 0 <= k < |c| ==> AssignVarIn(c, name, v).value[k].variables.Keys == c[k].variables.Keys
    ensures LookupVarIn(AssignVarIn(c, name, v).value, name) == Ok(v)
  {
    var k := ResolveIndex(c, name).value;
    var d := AssignVarIn(c, name, v).value;
    forall j | 0 <= j < |c| ensures d[j].variables.Keys == c[j].variables.Keys {
      if j == k {
        assert d[j].variables == c[j].variables[name := v];
      }
    }
    ResolveIndexNearest(d, name, k);
  }

  /** assignVar changes the value of no other name. */
  lemma {:induction false} AssignKeepsOtherNames(c: Chain, name: string, v: RuntimeValue, other: string)
    requires AssignVarIn(c, name, v).Ok? && other != name
    ensures LookupVarIn(AssignVarIn(c, name, v).value, other) == LookupVarIn(c, other)
  {
    var k := ResolveIndex(c, name).value;
    var d := AssignVarIn(c, name, v).value;
    assert forall j :: 0 <= j < |c| ==> d[j].variables.Keys == c[j].variables.Keys by {
      AssignThenLookup(c, name, v);
    }
    assert forall j :: 0 <= j < |c| && other in c[j].variables ==> d[j].variables[other] == c[j].variables[other];
    match ResolveIndex(c, other)
    case None =>
      assert forall j :: 0 <= j < |d| ==> other !in d[j].variables;
    case Some(m) =>
      ResolveIndexNearest(d, other, m);
  }

  /** Variables and functions are separate namespaces: registering a function
      changes no variable, and declaring a variable changes no function. */
  lemma {:induction false} NamespacesIndependent(c: Chain, name: string, body: seq<Stmt>, v: RuntimeValue, any: string)
    requires |c| > 0
    ensures DeclareFunIn(c, name, body).Ok? ==> LookupVarIn(DeclareFunIn(c, name, body).value, any) == LookupVarIn(c, any)
    ensures DeclareVarIn(c, name, v).Ok? ==> LookupFunIn(DeclareVarIn(c, name, v).value, any) == LookupFunIn(c, any)
  {
    if DeclareFunIn(c, name, body).Ok? {
      var d := DeclareFunIn(c, name, body).value;
      assert forall j :: 0 <= j < |c| ==> d[j].variables == c[j].variables;
      match ResolveIndex(c, any)
      case None =>
      case Some(m) => ResolveIndexNearest(d, any, m);
    }
    if DeclareVarIn(c, name, v).Ok? {
      var d := DeclareVarIn(c, name, v).value;
      assert d[0].functions == c[0].functions && d[1..] == c[1..];
    }
  }

  /** Right after declareFun(n, body), lookupFun(n) gives body. */
  lemma DeclareFunThenLookup(c: Chain, name: string, body: seq<Stmt>)
    requires |c| > 0 && DeclareFunIn(c, name, body).Ok?
    ensures LookupFunIn(DeclareFunIn(c, name, body).value, name) == Ok(body)
  {
  }

  /** A call slot filled and cleared again leaves the scope's slots as they
      were when the name had none. */
  lemma SlotRoundTrip(c: Chain, name: string)
    requires |c| > 0 && name !in c[0].funEnvs
    ensures DestroyFunEnvIn(SetFunEnvIn(c, name), name) == c
  {
    assert c[0].funEnvs + {name} - {name} == c[0].funEnvs;
    assert [c[0]] + c[1..] == c;
  }
}
