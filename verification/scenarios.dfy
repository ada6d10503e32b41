/** Whole-declaration examples of the pass, one per import form, worked out
    from the general definitions. */
module Scenarios {
  import opened Syntax
  import opened Templates
  import opened Collector
  import opened Lowerer
  import opened Traversal
  import opened DynamicImport

  /** `__my_require__("mod")` */
  const LoadMod: Expr := Call(Identifier("__my_require__"), [StringLiteral("mod")])

  /** A program of one declaration is that declaration lowered with its own
      descriptors. */
  lemma SingleDeclaration(decl: ImportDecl)
    ensures RunPass([ImportItem(decl)], []) == (Splice(decl, LowerDeclaration(decl, Collect(decl.specifiers))), [])
  {
    var items := [ImportItem(decl)];
    var lowered := Splice(decl, LowerDeclaration(decl, Collect(decl.specifiers)));
    NoLeak(items);
    assert items[1..] == [];
    assert ScopedPass(items) == lowered + ScopedPass([]);
    assert lowered + [] == lowered;
  }

  /** `import "runtime:foo";` becomes `__my_require__("foo");`. */
  lemma SideEffectImport()
    ensures RunPass([ImportItem(ImportDecl([], StringLiteral("runtime:foo")))], [])
            == ([StatementItem(ExprStmt(Call(Identifier("__my_require__"), [StringLiteral("foo")])))], [])
  {
    var decl := ImportDecl([], StringLiteral("runtime:foo"));
    var stmt := ExprStmt(Call(Identifier("__my_require__"), [StringLiteral("foo")]));
    SingleDeclaration(decl);
    assert "runtime:foo"[8..] == "foo";
    assert LowerDeclaration(decl, []) == Replace([stmt]);
    assert Splice(decl, Replace([stmt])) == [StatementItem(stmt)];
  }

  /** `import { a } from "runtime:mod";` becomes `var a = __my_require__("mod")["a"];`,
      whether or not the imported name was recorded. */
  lemma NamedShorthand(imported: Option<Name>)
    requires imported == None || imported == Some("a")
    ensures RunPass([ImportItem(ImportDecl([ImportSpecifier("a", imported)], StringLiteral("runtime:mod")))], [])
            == ([StatementItem(VarDecl("a", Member(LoadMod, StringLiteral("a"), true)))], [])
  {
    var decl := ImportDecl([ImportSpecifier("a", imported)], StringLiteral("runtime:mod"));
    var stmt := VarDecl("a", Member(LoadMod, StringLiteral("a"), true));
    SingleDeclaration(decl);
    assert "runtime:mod"[8..] == "mod";
    assert Collect(decl.specifiers) == [Common("a", imported)];
    assert LowerDeclaration(decl, [Common("a", imported)]) == Replace([stmt]);
    assert Splice(decl, Replace([stmt])) == [StatementItem(stmt)];
  }

  /** `import { a as b } from "runtime:mod";` becomes `var b = __my_require__("mod")["a"];`. */
  lemma NamedAlias()
    ensures RunPass([ImportItem(ImportDecl([ImportSpecifier("b", Some("a"))], StringLiteral("runtime:mod")))], [])
            == ([StatementItem(VarDecl("b", Member(LoadMod, StringLiteral("a"), true)))], [])
  {
    var decl := ImportDecl([ImportSpecifier("b", Some("a"))], StringLiteral("runtime:mod"));
    var stmt := VarDecl("b", Member(LoadMod, StringLiteral("a"), true));
    SingleDeclaration(decl);
    assert "runtime:mod"[8..] == "mod";
    assert Collect(decl.specifiers) == [Common("b", Some("a"))];
    assert LowerDeclaration(decl, [Common("b", Some("a"))]) == Replace([stmt]);
    assert Splice(decl, Replace([stmt])) == [StatementItem(stmt)];
  }

  /** `import * as ns from "runtime:mod";` becomes `var ns = __my_require__("mod");`. */
  lemma NamespaceImport()
    ensures RunPass([ImportItem(ImportDecl([NamespaceSpecifier("ns")], StringLiteral("runtime:mod")))], [])
            == ([StatementItem(VarDecl("ns", LoadMod))], [])
  {
    var decl := ImportDecl([NamespaceSpecifier("ns")], StringLiteral("runtime:mod"));
    var stmt := VarDecl("ns", LoadMod);
    SingleDeclaration(decl);
    assert "runtime:mod"[8..] == "mod";
    assert Collect(decl.specifiers) == [Namespace("ns")];
    assert LowerDeclaration(decl, [Namespace("ns")]) == Replace([stmt]);
    assert Splice(decl, Replace([stmt])) == [StatementItem(stmt)];
  }

  /** `import d, { a as b } from "runtime:mod";` becomes the default binding's
      statement followed by the named binding's. */
  lemma MixedSpecifiers()
    ensures RunPass([ImportItem(ImportDecl([DefaultSpecifier("d"), ImportSpecifier("b", Some("a"))], StringLiteral("runtime:mod")))], [])
            == ([ StatementItem(VarDecl("d", Member(LoadMod, StringLiteral("default"), true))),
                  StatementItem(VarDecl("b", Member(LoadMod, StringLiteral("a"), true))) ], [])
  {
    var decl := ImportDecl([DefaultSpecifier("d"), ImportSpecifier("b", Some("a"))], StringLiteral("runtime:mod"));
    var first := VarDecl("d", Member(LoadMod, StringLiteral("default"), true));
    var second := VarDecl("b", Member(LoadMod, StringLiteral("a"), true));
    SingleDeclaration(decl);
    assert "runtime:mod"[8..] == "mod";
    assert Collect(decl.specifiers) == [Default("d"), Common("b", Some("a"))];
    assert LowerDeclaration(decl, [Default("d"), Common("b", Some("a"))]) == Replace([first, second]);
    assert Splice(decl, Replace([first, second])) == [StatementItem(first), StatementItem(second)];
  }

  /** `import x from "./local";` and an import whose source is not a string
      literal stay as they are, and so does the program around them. */
  lemma OrdinaryImportsKept(s: Stmt)
    ensures var items := [ ImportItem(ImportDecl([DefaultSpecifier("x")], StringLiteral("./local"))),
                           StatementItem(s),
                           ImportItem(ImportDecl([], OtherExpr("TemplateLiteral"))) ];
            RunPass(items, []) == (items, [])
  {
    var items := [ ImportItem(ImportDecl([DefaultSpecifier("x")], StringLiteral("./local"))),
                   StatementItem(s),
                   ImportItem(ImportDecl([], OtherExpr("TemplateLiteral"))) ];
    assert !Scheme.HasScheme("./local");
    GatedProgramUnchanged(items);
  }

  /** `import("runtime:mod")` becomes `__my_require__.async("runtime:mod")`. */
  lemma DynamicRuntimeImport()
    ensures EnterImport(Call(ImportCallee, [StringLiteral("runtime:mod")]))
            == Call(Member(Identifier("__my_require__"), Identifier("async"), false), [StringLiteral("runtime:mod")])
  {
    assert Scheme.HasScheme("runtime:mod");
  }
}
