/** The reserved module-name scheme `runtime:`: the anchored pattern test and
    the removal of its one match. */
module Scheme {

  const Prefix: string := "runtime:"

  /** The anchored pattern `^runtime:` matches `s`. */
  predicate HasScheme(s: string)
  {
    |Prefix| <= |s| && s[..|Prefix|] == Prefix
  }

  /** Replacing the anchored pattern by the empty string: exactly one leading
      `runtime:` goes away, and a string without it is returned as is. */
  function StripScheme(s: string): (r: string)
    ensures HasScheme(s) ==> Prefix + r == s
    ensures !HasScheme(s) ==> r == s
  {
    if HasScheme(s) then s[|Prefix|..] else s
  }

  /** Stripping undoes prefixing, for every module name. */
  lemma StripAfterPrefix(m: string)
    ensures HasScheme(Prefix + m)
    ensures StripScheme(Prefix + m) == m
  {
    assert (Prefix + m)[..|Prefix|] == Prefix;
  }

  /** Only one occurrence is removed: a doubled scheme leaves one behind. */
  lemma StripRemovesOnlyOne(m: string)
    ensures StripScheme(Prefix + Prefix + m) == Prefix + m
    ensures HasScheme(StripScheme(Prefix + Prefix + m))
  {
    StripAfterPrefix(Prefix + m);
    assert Prefix + Prefix + m == Prefix + (Prefix + m);
    StripAfterPrefix(m);
  }

  /** A string carries the scheme exactly when it is the scheme followed by
      its stripped form. */
  lemma HasSchemeIffPrefixed(s: string)
    ensures HasScheme(s) <==> Prefix + StripScheme(s) == s
  {
    if Prefix + StripScheme(s) == s {
      StripAfterPrefix(StripScheme(s));
    }
  }
}
