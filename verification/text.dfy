/**
 * Ordinal, culture-independent text operations: the case-insensitive comparer
 * (`StringComparer.OrdinalIgnoreCase`) behind every dictionary of the client,
 * and the blank-string tests used by configuration validation.
 */
module Text {
  import opened Wrappers

  /** Case folding of one character (ASCII letters). */
  function FoldChar(c: char): char {
    if 'A' <= c <= 'Z' then (c as int + 32) as char else c
  }

  /** Ordinal case-insensitive equality: same length, characters equal after folding. */
  predicate EqualsIgnoreCase(a: string, b: string) {
    |a| == |b| && forall i :: 0 <= i < |a| ==> FoldChar(a[i]) == FoldChar(b[i])
  }

  /** The canonical form under which a case-insensitive dictionary files a key. */
  function Canon(s: string): string {
    seq(|s|, i requires 0 <= i < |s| => FoldChar(s[i]))
  }

  /** Two keys reach the same dictionary slot exactly when the comparer calls them equal. */
  lemma CanonMatchesComparer(a: string, b: string)
    ensures Canon(a) == Canon(b) <==> EqualsIgnoreCase(a, b)
  {
    if Canon(a) == Canon(b) {
      forall i | 0 <= i < |a|
        ensures FoldChar(a[i]) == FoldChar(b[i])
      {
        assert Canon(a)[i] == Canon(b)[i];
      }
    }
  }

  /** A canonical key is its own canonical form. */
  lemma CanonIdempotent(s: string)
    ensures Canon(Canon(s)) == Canon(s)
  {
  }

  /** A dictionary built with the case-insensitive comparer: every key is stored canonically. */
  type CiMap<V> = m: map<string, V> | forall k :: k in m ==> Canon(k) == k witness map[]

  /** `TryGetValue` on a case-insensitive dictionary. */
  function Lookup<V>(m: CiMap<V>, key: string): (r: Option<V>)
    ensures r.Some? <==> Canon(key) in m
    ensures r.Some? ==> r.value == m[Canon(key)]
  {
    if Canon(key) in m then Some(m[Canon(key)]) else None
  }

  /** The indexer assignment `m[key] = v` on a case-insensitive dictionary. */
  function Insert<V>(m: CiMap<V>, key: string, v: V): (r: CiMap<V>)
    ensures Lookup(r, key) == Some(v)
    ensures forall k :: !EqualsIgnoreCase(k, key) ==> Lookup(r, k) == Lookup(m, k)
    ensures r.Keys == m.Keys + {Canon(key)}
  {
    CanonIdempotent(key);
    forall k | !EqualsIgnoreCase(k, key)
      ensures Canon(k) != Canon(key)
    {
      CanonMatchesComparer(k, key);
    }
    m[Canon(key) := v]
  }

  /** Lookups ignore the case of the key. */
  lemma LookupIgnoresCase<V>(m: CiMap<V>, a: string, b: string)
    requires EqualsIgnoreCase(a, b)
    ensures Lookup(m, a) == Lookup(m, b)
  {
    CanonMatchesComparer(a, b);
  }

  /** `char.IsWhiteSpace`: the Unicode White_Space characters. */
  predicate IsWhiteSpace(c: char) {
    || '\t' <= c <= '\r'
    || c == ' ' || c == '\U{85}' || c == '\U{A0}' || c == '\U{1680}'
    || '\U{2000}' <= c <= '\U{200A}'
    || c == '\U{2028}' || c == '\U{2029}' || c == '\U{202F}' || c == '\U{205F}' || c == '\U{3000}'
  }

  /** `string.IsNullOrWhiteSpace`. */
  predicate IsNullOrWhiteSpace(s: Option<string>) {
    s.None? || forall i :: 0 <= i < |s.value| ==> IsWhiteSpace(s.value[i])
  }

  /** Blankness does not depend on case: folding never turns a white-space character into another character. */
  lemma BlankIgnoresCase(a: string, b: string)
    requires EqualsIgnoreCase(a, b)
    ensures IsNullOrWhiteSpace(Some(a)) <==> IsNullOrWhiteSpace(Some(b))
  {
    forall k | 0 <= k < |a|
      ensures IsWhiteSpace(a[k]) <==> IsWhiteSpace(b[k])
    {
      assert FoldChar(a[k]) == FoldChar(b[k]);
    }
  }

  /** `string.IsNullOrEmpty`. */
  predicate IsNullOrEmpty(s: Option<string>) {
    s.None? || s.value == ""
  }
}
