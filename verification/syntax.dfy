/** The slice of an ECMAScript syntax tree that the import-rewriting pass reads
    or builds: string literals, identifiers, calls and member accesses, the two
    statement shapes the templates produce, and import declarations with
    their specifiers. Also the descriptor that the specifier collector hands to
    the statement builder. */
module Syntax {

  datatype Option<+T> = None | Some(value: T)

  /** An identifier. A parser never produces an empty one. */
  type Name = s: string | |s| > 0 witness "_"

  /** Expression nodes. `ImportCallee` is the `import` keyword that stands as
      the callee of a dynamic `import(...)`; `OtherExpr` is any expression the
      pass does not look into (a template literal, a binary expression, ...). */
  datatype Expr =
    | Identifier(name: Name)
    | StringLiteral(value: string)
    | Call(callee: Expr, arguments: seq<Expr>)
    | Member(obj: Expr, property: Expr, computed: bool)
    | ImportCallee
    | OtherExpr(kind: string)

  /** Statements: `var id = init;` and an expression statement `expr;`. */
  datatype Stmt =
    | VarDecl(id: Name, init: Expr)
    | ExprStmt(expr: Expr)

  /** The three binding forms of an import declaration:
      `* as local`, `{ imported as local }` / `{ local }`, and `local`. */
  datatype Specifier =
    | NamespaceSpecifier(local: Name)
    | ImportSpecifier(local: Name, imported: Option<Name>)
    | DefaultSpecifier(local: Name)

  /** `import <specifiers> from <source>`; `source` is normally a string
      literal, but the pass does not rely on that. */
  datatype ImportDecl = ImportDecl(specifiers: seq<Specifier>, source: Expr)

  /** What the collector records for one binding, and the side-effect marker
      the lowerer synthesizes for a declaration without bindings. */
  datatype Descriptor =
    | Namespace(local: Name)
    | Common(local: Name, imported: Option<Name>)
    | Default(local: Name)
    | Side

  /** The name a descriptor's statement binds, if any. */
  function LocalOf(d: Descriptor): Option<Name>
  {
    if d.Side? then None else Some(d.local)
  }
}
