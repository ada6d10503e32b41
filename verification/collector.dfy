/** The specifier collector: one descriptor per binding of an import
    declaration, in source order. It never looks at the module name. */
module Collector {
  import opened Syntax

  /** The descriptor one specifier contributes: the matching kind, the same
      local name, and for a named binding the imported name as recorded. */
  function DescriptorOf(s: Specifier): (d: Descriptor)
    ensures !d.Side?
    ensures d.local == s.local
    ensures d.Namespace? <==> s.NamespaceSpecifier?
    ensures d.Default? <==> s.DefaultSpecifier?
    ensures d.Common? <==> s.ImportSpecifier?
    ensures d.Common? ==> d.imported == s.imported
  {
    match s
    case NamespaceSpecifier(local) => Namespace(local)
    case ImportSpecifier(local, imported) => Common(local, imported)
    case DefaultSpecifier(local) => Default(local)
  }

  /** The descriptors of a whole specifier list: same length, same order,
      element i from specifier i, and never a side-effect marker. */
  function Collect(specs: seq<Specifier>): (ds: seq<Descriptor>)
    ensures |ds| == |specs|
    ensures forall i :: 0 <= i < |specs| ==> ds[i] == DescriptorOf(specs[i])
    ensures forall i :: 0 <= i < |ds| ==> !ds[i].Side? && ds[i].local == specs[i].local
  {
    if specs == [] then [] else [DescriptorOf(specs[0])] + Collect(specs[1..])
  }

  /** Collecting a concatenation collects each part in turn. */
  lemma CollectAppend(a: seq<Specifier>, b: seq<Specifier>)
    ensures Collect(a + b) == Collect(a) + Collect(b)
  {
    var l, r := Collect(a + b), Collect(a) + Collect(b);
    assert |l| == |r|;
    forall i | 0 <= i < |l|
      ensures l[i] == r[i]
    {
      if i < |a| {
        assert (a + b)[i] == a[i];
      } else {
        assert (a + b)[i] == b[i - |a|];
      }
    }
  }

  /** Pushing each specifier's descriptor onto a shared list builds exactly the shared list followed by
      Collect of the specifiers. */
  lemma CollectIntoIsAppend(shared: seq<Descriptor>, specs: seq<Specifier>, list: seq<Descriptor>)
    requires |list| == |shared| + |specs|
    requires list[..|shared|] == shared
    requires forall i :: 0 <= i < |specs| ==> list[|shared| + i] == DescriptorOf(specs[i])
    ensures list == shared + Collect(specs)
  {
    var r := shared + Collect(specs);
    forall i | 0 <= i < |list|
      ensures list[i] == r[i]
    {
      if i < |shared| {
        assert list[i] == list[..|shared|][i];
      } else {
        assert list[|shared| + (i - |shared|)] == DescriptorOf(specs[i - |shared|]);
      }
    }
  }
}
