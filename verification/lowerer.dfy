/** The declaration lowerer: on leaving an import declaration, replace it by
    loader statements when its source is a `runtime:` string literal, and
    leave it alone otherwise. */
module Lowerer {
  import opened Syntax
  import opened Scheme
  import opened Templates

  /** What happens to the declaration node: kept, or replaced by a sequence
      of statements. */
  datatype Rewrite = Unchanged | Replace(stmts: seq<Stmt>)

  /** The declaration's source is a string literal carrying the scheme. */
  predicate IsExternal(source: Expr)
  {
    source.StringLiteral? && HasScheme(source.value)
  }

  /** Lowering with the descriptors collected for the declaration.
      - Gating: it is replaced exactly when its source is external.
      - Side effect: with nothing collected it becomes one statement that
        binds nothing and reads no key.
      - Count and order: otherwise statement i binds the local name of
        descriptor i and reads that descriptor's key.
      - Every statement loads the source's value with its scheme removed. */
  function LowerDeclaration(decl: ImportDecl, collected: seq<Descriptor>): (r: Rewrite)
    ensures r.Replace? <==> IsExternal(decl.source)
    ensures r.Replace? && collected == [] ==>
              |r.stmts| == 1 && BoundName(r.stmts[0]) == None && AccessedKey(r.stmts[0]) == None
    ensures r.Replace? && collected != [] ==>
              |r.stmts| == |collected|
              && (forall i :: 0 <= i < |collected| ==>
                    BoundName(r.stmts[i]) == LocalOf(collected[i]) && AccessedKey(r.stmts[i]) == KeyOf(collected[i]))
    ensures r.Replace? ==>
              forall i :: 0 <= i < |r.stmts| ==>
                LoadedModule(r.stmts[i]).Some? && Prefix + LoadedModule(r.stmts[i]).value == decl.source.value
  {
    if IsExternal(decl.source) then
      var moduleName := StripScheme(decl.source.value);
      if |collected| == 0 then
        Replace([ConstructSyncRequire(Side, moduleName)])
      else
        Replace(seq(|collected|, i requires 0 <= i < |collected| => ConstructSyncRequire(collected[i], moduleName)))
    else
      Unchanged
  }

  /** The replacement reads back, statement by statement, as the collected
      descriptors (or the side-effect marker) with the stripped module name. */
  lemma LoweringReadsBack(decl: ImportDecl, collected: seq<Descriptor>)
    requires IsExternal(decl.source)
    ensures var r := LowerDeclaration(decl, collected);
            var m := StripScheme(decl.source.value);
            && (collected == [] ==> r.stmts == [ConstructSyncRequire(Side, m)] && Decompile(r.stmts[0]) == Some((Side, m)))
            && (collected != [] ==>
                  forall i :: 0 <= i < |collected| ==> Decompile(r.stmts[i]) == Some((Canonical(collected[i]), m)))
  {
    var r := LowerDeclaration(decl, collected);
    var m := StripScheme(decl.source.value);
    if collected == [] {
      DecompileConstruct(Side, m);
    } else {
      forall i | 0 <= i < |collected|
        ensures Decompile(r.stmts[i]) == Some((Canonical(collected[i]), m))
      {
        DecompileConstruct(collected[i], m);
      }
    }
  }
}
