/** The statement builder: one fixed template per descriptor kind, each a
    call of the synchronous loader `__my_require__` on the bare module name,
    and a reader that recovers the descriptor and module name from a built
    statement. */
module Templates {
  import opened Syntax

  /** The loader function's name. */
  const SyncFunc: Name := "__my_require__"

  /** The key under which a default export is read. */
  const DefaultKey: Name := "default"

  /** `__my_require__(moduleName)` */
  function LoaderCall(moduleName: string): Expr
  {
    Call(Identifier(SyncFunc), [StringLiteral(moduleName)])
  }

  /** `obj[key]`, a computed member access with a string-literal key. */
  function Keyed(obj: Expr, key: string): Expr
  {
    Member(obj, StringLiteral(key), true)
  }

  /** The export a named binding reads: the imported name when one was
      recorded, the local name otherwise (`imported || local`). */
  function ImportedKey(local: Name, imported: Option<Name>): Name
  {
    if imported.Some? then imported.value else local
  }

  /** The export key each kind of binding reads off the loaded module, if it
      reads one at all. */
  function KeyOf(d: Descriptor): Option<string>
  {
    match d
    case Namespace(_) => None
    case Common(local, imported) => Some(ImportedKey(local, imported))
    case Default(_) => Some(DefaultKey)
    case Side => None
  }

  // ---------------------------------------------------------------------
  // Observations of a statement, independent of how it was built.
  // ---------------------------------------------------------------------

  /** The expression a statement evaluates. */
  function Evaluated(st: Stmt): Expr
  {
    match st
    case VarDecl(_, init) => init
    case ExprStmt(e) => e
  }

  /** The name a statement binds. */
  function BoundName(st: Stmt): Option<Name>
  {
    if st.VarDecl? then Some(st.id) else None
  }

  /** The module name when `e` is a loader call on one string literal. */
  function LoaderModule(e: Expr): Option<string>
  {
    if e.Call? && e.callee == Identifier(SyncFunc) && |e.arguments| == 1 && e.arguments[0].StringLiteral?
    then Some(e.arguments[0].value)
    else None
  }

  /** `e` reads a string key off a loader call. */
  predicate IsKeyedLoad(e: Expr)
  {
    e.Member? && e.computed && e.property.StringLiteral? && LoaderModule(e.obj).Some?
  }

  /** The module a statement loads, directly or under a key. */
  function LoadedModule(st: Stmt): Option<string>
  {
    var e := Evaluated(st);
    if IsKeyedLoad(e) then LoaderModule(e.obj) else LoaderModule(e)
  }

  /** The key a statement reads off the loaded module. */
  function AccessedKey(st: Stmt): Option<string>
  {
    var e := Evaluated(st);
    if IsKeyedLoad(e) then Some(e.property.value) else None
  }

  /** constructSyncRequire: the statement for one descriptor. It binds the
      descriptor's local name (nothing for the side-effect marker), loads the
      given module, and reads the kind's key: none for a namespace, `default`
      for a default binding, the imported (or else local) name for a named
      binding. */
  function ConstructSyncRequire(d: Descriptor, moduleName: string): (st: Stmt)
    ensures BoundName(st) == LocalOf(d)
    ensures LoadedModule(st) == Some(moduleName)
    ensures AccessedKey(st) == KeyOf(d)
  {
    match d
    case Namespace(local) => VarDecl(local, LoaderCall(moduleName))
    case Common(local, imported) => VarDecl(local, Keyed(LoaderCall(moduleName), ImportedKey(local, imported)))
    case Default(local) => VarDecl(local, Keyed(LoaderCall(moduleName), DefaultKey))
    case Side => ExprStmt(LoaderCall(moduleName))
  }

  // ---------------------------------------------------------------------
  // Reading a statement back.
  // ---------------------------------------------------------------------

  /** The one descriptor among those that build the same statement:
      a named binding records its effective key, and a named binding of
      `default` is the default binding. */
  function Canonical(d: Descriptor): Descriptor
  {
    match d
    case Common(local, imported) =>
      var key := ImportedKey(local, imported);
      if key == DefaultKey then Default(local) else Common(local, Some(key))
    case _ => d
  }

  /** Recovers the canonical descriptor and the module name from a statement
      one of the templates could have built; `None` for any other statement. */
  function Decompile(st: Stmt): (r: Option<(Descriptor, string)>)
    ensures r.Some? ==> LoadedModule(st) == Some(r.value.1)
    ensures r.Some? ==> BoundName(st) == LocalOf(r.value.0)
  {
    match LoadedModule(st)
    case None => None
    case Some(m) =>
      match AccessedKey(st)
      case None =>
        if st.ExprStmt? then Some((Side, m)) else Some((Namespace(st.id), m))
      case Some(k) =>
        if st.ExprStmt? || |k| == 0 then None
        else if k == DefaultKey then Some((Default(st.id), m))
        else
          var key: Name := k;
          Some((Common(st.id, Some(key)), m))
  }

  /** Building from a descriptor and its canonical form gives the same
      statement; in particular `{ default as x }` lowers like `x`. */
  lemma CanonicalBuildsSame(d: Descriptor, moduleName: string)
    ensures ConstructSyncRequire(Canonical(d), moduleName) == ConstructSyncRequire(d, moduleName)
    ensures Canonical(Canonical(d)) == Canonical(d)
  {
  }

  /** Reading a built statement back yields the canonical descriptor and the
      module name it was built from. */
  lemma DecompileConstruct(d: Descriptor, moduleName: string)
    ensures Decompile(ConstructSyncRequire(d, moduleName)) == Some((Canonical(d), moduleName))
  {
  }

  /** Every statement that reads back was built by the templates, from what
      it reads back as. */
  lemma ConstructDecompile(st: Stmt)
    requires Decompile(st).Some?
    ensures ConstructSyncRequire(Decompile(st).value.0, Decompile(st).value.1) == st
  {
    var e := Evaluated(st);
    var m := LoadedModule(st).value;
    if IsKeyedLoad(e) {
      assert e.obj.arguments == [StringLiteral(m)];
      assert e.obj == LoaderCall(m);
    } else {
      assert e.arguments == [StringLiteral(m)];
      assert e == LoaderCall(m);
    }
  }

  /** Two descriptors build the same statement only when they are the same
      binding of the same module. */
  lemma ConstructInjective(d1: Descriptor, m1: string, d2: Descriptor, m2: string)
    requires ConstructSyncRequire(d1, m1) == ConstructSyncRequire(d2, m2)
    ensures Canonical(d1) == Canonical(d2) && m1 == m2
  {
    DecompileConstruct(d1, m1);
    DecompileConstruct(d2, m2);
  }
}
