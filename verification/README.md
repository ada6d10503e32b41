# babel-plugin-import-customized-require, modelled in Dafny

This is a model of the Babel plugin's visitor in `lib/visitor.js`. The visitor
rewrites ES-module imports whose module name starts with the reserved scheme
`runtime:` into calls of a runtime loader, `__my_require__`, so that a bundler
does not try to resolve those modules:

- `import * as ns from "runtime:m"` becomes `var ns = __my_require__("m");`
- `import { a as b } from "runtime:m"` becomes `var b = __my_require__("m")["a"];`
- `import d from "runtime:m"` becomes `var d = __my_require__("m")['default'];`
- `import "runtime:m"` becomes `__my_require__("m");`
- `import("runtime:m")` becomes `__my_require__.async("runtime:m")`

Any other import is left alone.

The syntax tree is a small set of datatypes. Babel's path API becomes pure
functions that return either a replacement or "unchanged".

| file | module | models |
|---|---|---|
| `syntax.dfy` | `Syntax` | expressions, statements, specifiers, import declarations, descriptors |
| `scheme.dfy` | `Scheme` | the `/^runtime:/` test and its removal |
| `templates.dfy` | `Templates` | the four templates and `constructSyncRequire`, plus a reader that inverts them |
| `collector.dfy` | `Collector` | `specifierVisitor` |
| `lowerer.dfy` | `Lowerer` | `ImportDeclaration.exit` |
| `traversal.dfy` | `Traversal` | the module-level `specifiers` list across `enter`/`exit`, including the push loop, folded over a program |
| `dynamic_import.dfy` | `DynamicImport` | `Import.enter` |
| `scenarios.dfy` | `Scenarios` | one worked example per import form, run through the whole pass from an empty list |

Properties proved for each operation:

- **Templates.** Each built statement reads back as its descriptor, in canonical form, and module name, and the reverse also holds.
- **Collector.** The push loop that runs on entering a declaration builds exactly the shared list followed by the per-specifier map.
- **Shared list.** Threading it through a program gives the same result as a reference pass in which each declaration sees only its own specifiers.
- **Dynamic import.** A dynamic import is rewritten exactly when the static declaration with the same literal is. After the rewrite, no `import` callee remains.

Modelling choices:

- Identifiers are non-empty strings (`Syntax.Name`), as a parser produces them. Under that assumption, the source's `imported || local` means "the imported name when present, else the local name".
- String-literal values and module names may be empty: `"runtime:"` lowers to a load of `""`.
- The source records the module name by mutating each descriptor (`s['moduleName'] = moduleName`). Here the builder takes the module name as a parameter.
- The `SIDE` case falls through into `default: break`, which does nothing. The Dafny `match` over the four descriptor kinds is therefore total and has no default branch.
- `import { default as x }` and `import x` build the same statement. `Templates.Canonical` names this identification.
- The dynamic-import rule checks only the first argument. It keeps every argument, extra ones included, and does not strip the scheme from the name the async loader receives.

## Model

| member | source | states |
|---|---|---|
| Scheme.StripScheme | lib/visitor.js:150 | with the scheme present, the scheme followed by the result is the input; without it, the input is returned unchanged |
| Scheme.StripAfterPrefix | lib/visitor.js:149-150 | for every name m, `runtime:` + m passes the scheme test, and stripping it gives back m |
| Scheme.StripRemovesOnlyOne | lib/visitor.js:150 | the anchored pattern is removed once: `runtime:runtime:m` strips to `runtime:m`, which still carries the scheme |
| Scheme.HasSchemeIffPrefixed | lib/visitor.js:12 | the scheme test holds exactly when the string equals the scheme followed by its stripped form |
| Templates.ConstructSyncRequire | lib/visitor.js:73-115 | the statement binds the descriptor's local name (nothing for SIDE) and loads the given module name; it reads no key for NAMESPACE, 'default' for DEFAULT, and the imported name (or else the local name) for COMMON |
| Templates.Decompile | lib/visitor.js:15-29 | whatever a statement reads back as has the module name the statement loads and the name it binds |
| Templates.CanonicalBuildsSame | lib/visitor.js:89-103 | a COMMON descriptor builds the same statement as its canonical form, so a named import of `default` lowers like a default import |
| Templates.DecompileConstruct | lib/visitor.js:73-115 | reading back any built statement recovers the canonical descriptor and the module name it was built from |
| Templates.ConstructDecompile | lib/visitor.js:15-29 | every statement that reads back is exactly the template output for what it reads back as |
| Templates.ConstructInjective | lib/visitor.js:73-115 | two descriptors build the same statement only for the same canonical binding of the same module |
| Collector.DescriptorOf | lib/visitor.js:38-66 | each specifier gives one descriptor of the matching kind with the same local name; a named specifier keeps its imported name; SIDE is never produced |
| Collector.Collect | lib/visitor.js:38-66 | one descriptor per specifier, in visit order, element i from specifier i, none of them SIDE |
| Collector.CollectAppend | lib/visitor.js:38-66 | collecting two specifier lists in a row equals collecting their concatenation |
| Collector.CollectIntoIsAppend | lib/visitor.js:142 | a list that holds the old shared list followed by each specifier's descriptor, in order, equals the old list concatenated with Collect |
| Lowerer.LowerDeclaration | lib/visitor.js:145-169 | the declaration is replaced exactly when its source is a string literal with the scheme. With nothing collected there is one statement that binds no name and reads no key; otherwise statement i binds descriptor i's local name and reads its key. Every statement loads the source value minus one leading scheme |
| Lowerer.LoweringReadsBack | lib/visitor.js:152-168 | the replacement reads back as the single SIDE descriptor, or as descriptor i at position i, always with the stripped module name |
| Traversal.Enter | lib/visitor.js:140-143 | entering keeps the current shared list and appends the declaration's descriptors in order |
| Traversal.EnterByPushes | lib/visitor.js:140-143 | the push loop run on entering a declaration computes Enter: the old shared list, then one descriptor per specifier in order |
| Traversal.Exit | lib/visitor.js:145-172 | leaving always empties the list, matched or not, so the next declaration entered holds exactly its own descriptors |
| Traversal.FinalListEmpty | lib/visitor.js:171 | after a program with a declaration, the list is empty whatever it held at the start; a program without one passes through unchanged |
| Traversal.NoLeak | lib/visitor.js:139-172 | starting from the empty list, the shared-list pass equals the pass in which each declaration is lowered with only its own specifiers, and it ends with the list empty |
| Traversal.RunPassAppend | lib/visitor.js:139-172 | the pass over two programs in a row equals the pass over the first followed by the pass over the second, started from the list the first left |
| Traversal.StatementsPassThrough | lib/visitor.js:139-172 | a program of statements only comes back unchanged, and so does the list |
| Traversal.LeadingDeclaration | lib/visitor.js:142 | in a program that starts with a declaration, that declaration is lowered with the leftovers followed by its own descriptors, and the rest of the program as if the list started empty |
| Traversal.LeakConfinedToFirst | lib/visitor.js:142 | after any run of leading statements, leftover descriptors reach only the first declaration; the statements pass through and every later declaration is lowered with its own descriptors |
| Traversal.GatedProgramUnchanged | lib/visitor.js:146-149 | a program with no external import declaration is returned unchanged, with the list empty |
| DynamicImport.EnterImport | lib/visitor.js:120-135 | a matching call keeps its whole argument list and only its callee becomes `__my_require__.async`; a non-matching parent comes back unchanged; a call stays a call |
| DynamicImport.RewriteConsumesImport | lib/visitor.js:129-133 | the rewritten call no longer has the `import` callee, so a dynamic import stays one exactly when its argument did not match |
| DynamicImport.GateMatchesDeclaration | lib/visitor.js:124-127 | `import(v, ...)` is rewritten exactly when `import "v"` is; then the declaration loads v without its scheme while the async loader receives the scheme followed by that same name |
| Scenarios.SingleDeclaration | lib/visitor.js:139-172 | the pass over a program of one declaration lowers it with its own descriptors and ends with the list empty |
| Scenarios.SideEffectImport | lib/visitor.js:153-158 | `import "runtime:foo"` becomes the single statement `__my_require__("foo");` |
| Scenarios.NamedShorthand | lib/visitor.js:89-96 | `import { a } from "runtime:mod"` becomes `var a = __my_require__("mod")["a"];`, with or without a recorded imported name |
| Scenarios.NamedAlias | lib/visitor.js:48-56 | `import { a as b } from "runtime:mod"` becomes `var b = __my_require__("mod")["a"];` |
| Scenarios.NamespaceImport | lib/visitor.js:82-87 | `import * as ns from "runtime:mod"` becomes `var ns = __my_require__("mod");` |
| Scenarios.MixedSpecifiers | lib/visitor.js:160-168 | `import d, { a as b } from "runtime:mod"` becomes the default binding's statement followed by the named binding's |
| Scenarios.OrdinaryImportsKept | lib/visitor.js:149 | a relative import, a statement, and an import whose source is not a string literal all pass through unchanged |
| Scenarios.DynamicRuntimeImport | lib/visitor.js:124-133 | `import("runtime:mod")` becomes `__my_require__.async("runtime:mod")` |

## Left out

- Node construction through `babel-types` and `babel-template`: these are foreign library calls. Built nodes are `Syntax` datatype values instead.
- Babel's path API (`traverse`, `replaceWith`, `replaceWithMultiple`, `parentPath`) and the traversal driver. Rewrites are returned as values (`Lowerer.Rewrite`, the new parent expression). The driver is modelled only as an in-order fold over top-level program items (`Traversal.RunPass`); dynamic imports nested inside statements are not searched for.
- Driver misbehaviour, such as an `exit` that never follows an `enter` because another plugin removed the node. The fold always pairs `enter` with `exit`.
- The regular-expression engine: `/^runtime:/` is modelled as a string-prefix test and removal.
- Plugin registration through `module.exports` and the runtime behaviour of `__my_require__` and `__my_require__.async`: these are outside the visitor's logic.
- Specifier node types other than the three import specifiers. Babel's import declaration contains no others, and the collector ignores every other node type, so the model has no fourth specifier form.
- Templates.Decompile: its contract states only what a read-back agrees with. The exact set of statements it accepts is stated by `Templates.DecompileConstruct` and `Templates.ConstructDecompile`.
