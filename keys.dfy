/** Usage keys and `_normalize_id` (problem_builder/mixins.py:21-30).

    A usage key names a block by its block type and its name. Some key
    classes also carry a branch and a version; those expose `for_branch` and
    `for_version`, and normalising a key clears whichever of the two it
    supports. */
module Keys {

  /** One optional qualifier of a key: the key class may not support it at
      all (no `for_branch` / `for_version` attribute), or support it and be
      unset, or carry a value. */
  datatype Qualifier = Unsupported | Unset | Tagged(tag: string)

  datatype Key = Key(blockType: string, name: string, branch: Qualifier, version: Qualifier)

  /** `key.for_branch(None)` / `key.for_version(None)` on a supported qualifier. */
  function Clear(q: Qualifier): Qualifier
  {
    if q.Unsupported? then Unsupported else Unset
  }

  /** A key that carries neither a branch nor a version. */
  predicate Normalized(k: Key)
  {
    !k.branch.Tagged? && !k.version.Tagged?
  }

  /** `_normalize_id(key)`. */
  function NormalizeId(k: Key): (r: Key)
    ensures Normalized(r)
    ensures r.blockType == k.blockType && r.name == k.name
    ensures k.branch.Unsupported? <==> r.branch.Unsupported?
    ensures k.version.Unsupported? <==> r.version.Unsupported?
  {
    Key(k.blockType, k.name, Clear(k.branch), Clear(k.version))
  }

  /** A key without branch and version is its own normal form: in particular
      keys that support neither qualifier come back unchanged. */
  lemma NormalizeFixesNormalized(k: Key)
    requires Normalized(k)
    ensures NormalizeId(k) == k
  {
  }

  /** Normalising twice is normalising once. */
  lemma NormalizeIdempotent(k: Key)
    ensures NormalizeId(NormalizeId(k)) == NormalizeId(k)
  {
  }

  /** Two keys normalise alike exactly when they differ at most in the
      values of their branch and version. */
  lemma NormalizeEqual(k1: Key, k2: Key)
    ensures NormalizeId(k1) == NormalizeId(k2) <==>
      k1.blockType == k2.blockType && k1.name == k2.name &&
      k1.branch.Unsupported? == k2.branch.Unsupported? &&
      k1.version.Unsupported? == k2.version.Unsupported?
  {
  }
}
