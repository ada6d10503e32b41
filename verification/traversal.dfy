/** The import-declaration rule with its shared descriptor list, run over a
    program's top-level items in order: entering a declaration pushes its
    descriptors onto the list, leaving it lowers with the list and then empties
    the list, matched or not. */
module Traversal {
  import opened Syntax
  import opened Collector
  import opened Lowerer

  /** A top-level item of a program. */
  datatype Item = ImportItem(decl: ImportDecl) | StatementItem(stmt: Stmt)

  /** Entering a declaration: its descriptors go after whatever the shared
      list holds. */
  function Enter(shared: seq<Descriptor>, decl: ImportDecl): (list: seq<Descriptor>)
    ensures |list| == |shared| + |decl.specifiers|
    ensures list[..|shared|] == shared
    ensures forall i :: 0 <= i < |decl.specifiers| ==> list[|shared| + i] == DescriptorOf(decl.specifiers[i])
  {
    shared + Collect(decl.specifiers)
  }

  /** The push loop that runs while entering a declaration: each visited
      specifier appends its descriptor to the shared list. It computes Enter. */
  method EnterByPushes(shared: seq<Descriptor>, decl: ImportDecl) returns (list: seq<Descriptor>)
    ensures list == Enter(shared, decl)
  {
    list := shared;
    var k := 0;
    while k < |decl.specifiers|
      invariant 0 <= k <= |decl.specifiers|
      invariant |list| == |shared| + k
      invariant list[..|shared|] == shared
      invariant forall i :: 0 <= i < k ==> list[|shared| + i] == DescriptorOf(decl.specifiers[i])
    {
      list := list + [DescriptorOf(decl.specifiers[k])];
      k := k + 1;
    }
    CollectIntoIsAppend(shared, decl.specifiers, list);
  }

  /** Leaving a declaration: lower with the shared list, then reset it. The
      list is empty afterwards whether or not the declaration matched, so the
      next declaration entered holds exactly its own descriptors. */
  function Exit(shared: seq<Descriptor>, decl: ImportDecl): (r: (Rewrite, seq<Descriptor>))
    ensures r.1 == []
    ensures forall next: ImportDecl :: Enter(r.1, next) == Collect(next.specifiers)
    ensures r.0.Replace? <==> IsExternal(decl.source)
    ensures r.0 == LowerDeclaration(decl, shared)
  {
    (LowerDeclaration(decl, shared), [])
  }

  /** The items a rewrite leaves in place of the declaration. */
  function Splice(decl: ImportDecl, rw: Rewrite): seq<Item>
  {
    match rw
    case Unchanged => [ImportItem(decl)]
    case Replace(stmts) => seq(|stmts|, i requires 0 <= i < |stmts| => StatementItem(stmts[i]))
  }

  /** One top-level item: a statement is kept and leaves the list alone; a
      declaration is entered and exited. */
  function Step(item: Item, shared: seq<Descriptor>): (seq<Item>, seq<Descriptor>)
  {
    match item
    case StatementItem(_) => ([item], shared)
    case ImportItem(decl) =>
      var exited := Exit(Enter(shared, decl), decl);
      (Splice(decl, exited.0), exited.1)
  }

  /** The pass over a program with the shared list threaded through: the
      rewritten program and the list left at the end. */
  function RunPass(items: seq<Item>, shared: seq<Descriptor>): (seq<Item>, seq<Descriptor>)
  {
    if items == [] then ([], shared)
    else
      var step := Step(items[0], shared);
      var rest := RunPass(items[1..], step.1);
      (step.0 + rest.0, rest.1)
  }

  /** Reference pass with per-declaration state: each declaration is lowered
      with the descriptors of its own specifiers and nothing else. */
  function ScopedPass(items: seq<Item>): seq<Item>
  {
    if items == [] then []
    else
      match items[0]
      case StatementItem(_) => [items[0]] + ScopedPass(items[1..])
      case ImportItem(decl) =>
        Splice(decl, LowerDeclaration(decl, Collect(decl.specifiers))) + ScopedPass(items[1..])
  }

  /** The program holds at least one import declaration. */
  predicate HasImport(items: seq<Item>)
  {
    exists i :: 0 <= i < |items| && items[i].ImportItem?
  }

  /** The shared list after the pass: untouched when there is no declaration,
      empty after the last one otherwise, from any starting list. */
  lemma {:induction false} FinalListEmpty(items: seq<Item>, shared: seq<Descriptor>)
    ensures HasImport(items) ==> RunPass(items, shared).1 == []
    ensures !HasImport(items) ==> RunPass(items, shared) == (items, shared)
    decreases |items|
  {
    if items != [] {
      var tail := items[1..];
      assert HasImport(tail) ==> HasImport(items) by {
        if HasImport(tail) {
          var j :| 0 <= j < |tail| && tail[j].ImportItem?;
          assert items[j + 1] == tail[j];
        }
      }
      match items[0]
      case StatementItem(_) =>
        FinalListEmpty(tail, shared);
        assert HasImport(items) ==> HasImport(tail) by {
          if HasImport(items) {
            var j :| 0 <= j < |items| && items[j].ImportItem?;
            assert j != 0;
            assert tail[j - 1] == items[j];
          }
        }
        assert [items[0]] + tail == items;
      case ImportItem(decl) =>
        assert HasImport(items) by { assert items[0].ImportItem?; }
        FinalListEmpty(tail, []);
    }
  }

  /** No leak: starting from the empty list, the shared-list pass is the
      per-declaration pass, and the list is empty again at the end. Each
      declaration's lowering depends only on the specifiers collected while
      entering it, even right after a declaration without specifiers or one
      that did not match. */
  lemma {:induction false} NoLeak(items: seq<Item>)
    ensures RunPass(items, []) == (ScopedPass(items), [])
    decreases |items|
  {
    if items != [] {
      NoLeak(items[1..]);
      match items[0]
      case StatementItem(_) =>
      case ImportItem(decl) =>
        assert Enter([], decl) == Collect(decl.specifiers);
    }
  }

  /** The pass over a concatenation runs over the first part and continues
      over the second from the list the first part left. */
  lemma {:induction false} RunPassAppend(a: seq<Item>, b: seq<Item>, shared: seq<Descriptor>)
    ensures var first := RunPass(a, shared);
            var second := RunPass(b, first.1);
            RunPass(a + b, shared) == (first.0 + second.0, second.1)
    decreases |a|
  {
    if a == [] {
      assert a + b == b;
      assert RunPass(a, shared) == ([], shared);
      assert [] + RunPass(b, shared).0 == RunPass(b, shared).0;
    } else {
      var step := Step(a[0], shared);
      var tail := RunPass(a[1..], step.1);
      var second := RunPass(b, tail.1);
      var ab := a + b;
      assert ab[0] == a[0] && ab[1..] == a[1..] + b;
      RunPassAppend(a[1..], b, step.1);
      assert RunPass(a[1..] + b, step.1) == (tail.0 + second.0, second.1);
      assert RunPass(ab, shared) == (step.0 + (tail.0 + second.0), second.1);
      assert RunPass(a, shared) == (step.0 + tail.0, tail.1);
      assert step.0 + (tail.0 + second.0) == (step.0 + tail.0) + second.0;
    }
  }

  /** Statements alone leave the program and the list as they are. */
  lemma StatementsPassThrough(pre: seq<Item>, shared: seq<Descriptor>)
    requires forall i :: 0 <= i < |pre| ==> pre[i].StatementItem?
    ensures RunPass(pre, shared) == (pre, shared)
  {
    assert !HasImport(pre);
    FinalListEmpty(pre, shared);
  }

  /** A program that starts with a declaration: the declaration sees the
      leftovers, the rest of the program sees an empty list. */
  lemma LeadingDeclaration(decl: ImportDecl, rest: seq<Item>, shared: seq<Descriptor>)
    ensures RunPass([ImportItem(decl)] + rest, shared)
            == (Splice(decl, LowerDeclaration(decl, shared + Collect(decl.specifiers))) + ScopedPass(rest), [])
  {
    var items := [ImportItem(decl)] + rest;
    assert items[1..] == rest;
    NoLeak(rest);
  }

  /** Whatever the list held before, it can only affect the first
      declaration: the statements in front of it pass through, it is lowered
      with the leftovers followed by its own descriptors, and every later
      declaration is lowered with its own descriptors only. */
  lemma {:induction false} LeakConfinedToFirst(pre: seq<Item>, decl: ImportDecl, rest: seq<Item>, shared: seq<Descriptor>)
    requires forall i :: 0 <= i < |pre| ==> pre[i].StatementItem?
    ensures RunPass(pre + [ImportItem(decl)] + rest, shared)
            == (pre + Splice(decl, LowerDeclaration(decl, shared + Collect(decl.specifiers))) + ScopedPass(rest), [])
  {
    var items := [ImportItem(decl)] + rest;
    var lowered := Splice(decl, LowerDeclaration(decl, shared + Collect(decl.specifiers)));
    calc {
      RunPass(pre + [ImportItem(decl)] + rest, shared);
    == { assert pre + [ImportItem(decl)] + rest == pre + items; }
      RunPass(pre + items, shared);
    == { RunPassAppend(pre, items, shared); StatementsPassThrough(pre, shared); }
      (pre + RunPass(items, shared).0, RunPass(items, shared).1);
    == { LeadingDeclaration(decl, rest, shared); }
      (pre + (lowered + ScopedPass(rest)), []);
    == { assert pre + (lowered + ScopedPass(rest)) == pre + lowered + ScopedPass(rest); }
      (pre + lowered + ScopedPass(rest), []);
    }
  }

  /** Gating, program-wide: when no declaration carries a `runtime:` string
      literal, the pass returns the program unchanged. */
  lemma {:induction false} GatedProgramUnchanged(items: seq<Item>)
    requires forall i :: 0 <= i < |items| && items[i].ImportItem? ==> !IsExternal(items[i].decl.source)
    ensures ScopedPass(items) == items
    ensures RunPass(items, []) == (items, [])
    decreases |items|
  {
    if items != [] {
      var tail := items[1..];
      assert forall i :: 0 <= i < |tail| && tail[i].ImportItem? ==> !IsExternal(tail[i].decl.source) by {
        forall i | 0 <= i < |tail| && tail[i].ImportItem?
          ensures !IsExternal(tail[i].decl.source)
        {
          assert tail[i] == items[i + 1];
        }
      }
      GatedProgramUnchanged(tail);
      assert [items[0]] + tail == items;
    }
    NoLeak(items);
  }
}
