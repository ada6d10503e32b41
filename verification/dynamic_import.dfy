/** The dynamic-import rule: entering the `import` callee of a call whose first
    argument is a `runtime:` string literal replaces the call's callee by
    `__my_require__.async` and keeps the arguments. */
module DynamicImport {
  import opened Syntax
  import opened Scheme
  import opened Templates
  import opened Lowerer

  const AsyncFunc: Name := "__my_require__"
  const AsyncAttr: Name := "async"

  /** `__my_require__.async`, a non-computed member access. */
  const AsyncCallee: Expr := Member(Identifier(AsyncFunc), Identifier(AsyncAttr), false)

  /** The parent of the `import` callee is a call whose first argument exists,
      is a string literal and carries the scheme. */
  predicate IsRuntimeImport(parent: Expr)
  {
    parent.Call? && |parent.arguments| > 0
    && parent.arguments[0].StringLiteral? && HasScheme(parent.arguments[0].value)
  }

  /** The parent node after the rule has run on it. A matching call keeps its
      whole argument list, extra arguments included, and only its callee
      changes; anything else comes back as it was. */
  function EnterImport(parent: Expr): (r: Expr)
    ensures r.Call? <==> parent.Call?
    ensures r.Call? ==> r.arguments == parent.arguments
    ensures IsRuntimeImport(parent) ==> r.callee == AsyncCallee
    ensures !IsRuntimeImport(parent) ==> r == parent
  {
    if IsRuntimeImport(parent) then Call(AsyncCallee, parent.arguments) else parent
  }

  /** A dynamic `import(...)` node: a call whose callee is the `import` keyword. */
  predicate IsDynamicImport(e: Expr)
  {
    e.Call? && e.callee == ImportCallee
  }

  /** The rewrite leaves no `import` callee behind, so a rewritten call is no
      longer a dynamic import and the rule fires at most once per call: a
      dynamic import stays one exactly when its argument did not match. */
  lemma RewriteConsumesImport(parent: Expr)
    requires IsDynamicImport(parent)
    ensures IsDynamicImport(EnterImport(parent)) <==> !IsRuntimeImport(parent)
  {
  }

  /** The two rule families agree on which module names are external: a
      dynamic import whose first argument is the literal `v` is rewritten
      exactly when `import "v"` is. The static form then loads `v` without
      its scheme, while the async loader receives `v` itself, which is the
      scheme followed by that same name. */
  lemma {:induction false} GateMatchesDeclaration(v: string, more: seq<Expr>)
    ensures IsRuntimeImport(Call(ImportCallee, [StringLiteral(v)] + more))
            <==> IsExternal(StringLiteral(v))
    ensures IsExternal(StringLiteral(v)) ==>
              var stmts := LowerDeclaration(ImportDecl([], StringLiteral(v)), []).stmts;
              var dynamicArg := EnterImport(Call(ImportCallee, [StringLiteral(v)] + more)).arguments[0];
              && LoadedModule(stmts[0]) == Some(StripScheme(v))
              && dynamicArg == StringLiteral(Prefix + StripScheme(v))
  {
    var call := Call(ImportCallee, [StringLiteral(v)] + more);
    assert call.arguments[0] == StringLiteral(v);
    if IsExternal(StringLiteral(v)) {
      LoweringReadsBack(ImportDecl([], StringLiteral(v)), []);
    }
  }
}
