// Merging of annotation maps (internal/metadata/annotation.go).
module Metadata {
  predicate Contains(s: string, sub: string) {
    exists i :: 0 <= i <= |s| - |sub| && s[i..][..|sub|] == sub
  }

  predicate IsKubernetesAnnotation(k: string) {
    Contains(k, "kubernetes.io") || Contains(k, "k8s.io")
  }

  predicate IsNotKubernetesAnnotation(k: string) {
    !IsKubernetesAnnotation(k)
  }

  predicate Around(k: string, before: string, sub: string, after: string) {
    k == before + sub + after
  }

  lemma ContainsMeansAround(s: string, sub: string)
    ensures Contains(s, sub) <==> exists before, after :: Around(s, before, sub, after)
  {
    if Contains(s, sub) {
      var i :| 0 <= i <= |s| - |sub| && s[i..][..|sub|] == sub;
      assert Around(s, s[..i], sub, s[i..][|sub|..]);
    }
    if before, after :| Around(s, before, sub, after) {
      assert s[|before|..][..|sub|] == sub;
    }
  }

  // The annotations that are left to Kubernetes have one of its two domains in
  // their key.
  lemma KubernetesKeys(k: string)
    ensures !IsNotKubernetesAnnotation(k) <==>
      (exists before, after :: Around(k, before, "kubernetes.io", after))
      || (exists before, after :: Around(k, before, "k8s.io", after))
  {
    ContainsMeansAround(k, "kubernetes.io");
    ContainsMeansAround(k, "k8s.io");
  }

  predicate AnyAnnotation(k: string) {
    true
  }

  function Filtered<V>(filter: string -> bool, m: map<string, V>): map<string, V> {
    map k | k in m && filter(k) :: m[k]
  }

  // The base map after every map of the list was laid over it in turn.
  function Merged<V>(filter: string -> bool, base: map<string, V>, maps: seq<map<string, V>>): map<string, V>
    decreases |maps|
  {
    if maps == [] then base else Merged(filter, base + Filtered(filter, maps[0]), maps[1..])
  }

  method MergeWithFilter<V>(filter: string -> bool, base: map<string, V>, maps: seq<map<string, V>>)
    returns (result: map<string, V>)
    ensures result == Merged(filter, base, maps)
  {
    hide Filtered;
    result := base;
    for i := 0 to |maps|
      invariant Merged(filter, base, maps) == Merged(filter, result, maps[i..])
    {
      assert maps[i..][1..] == maps[i + 1..];
      result := LayOver(filter, result, maps[i]);
    }
    assert maps[|maps|..] == [];
  }

  // Ranging over one map, in any order.
  method LayOver<V>(filter: string -> bool, base: map<string, V>, m: map<string, V>) returns (result: map<string, V>)
    ensures result == base + Filtered(filter, m)
  {
    result := base;
    var keys := m.Keys;
    while keys != {}
      invariant keys <= m.Keys
      invariant result == base + Filtered(filter, m - keys)
      decreases keys
    {
      var k :| k in keys;
      keys := keys - {k};
      if filter(k) { result := result[k := m[k]]; }
    }
    assert m - {} == m;
  }

  // The last map that passes a value for the key wins; otherwise the base has it.
  function Winner<V>(filter: string -> bool, base: map<string, V>, maps: seq<map<string, V>>, k: string)
    : map<string, V>
  {
    if maps == [] then base
    else if filter(k) && k in maps[|maps| - 1] then maps[|maps| - 1]
    else Winner(filter, base, maps[..|maps| - 1], k)
  }

  lemma {:induction false} MergedSnoc<V>(filter: string -> bool, base: map<string, V>, maps: seq<map<string, V>>,
    m: map<string, V>)
    ensures Merged(filter, base, maps + [m]) == Merged(filter, base, maps) + Filtered(filter, m)
    decreases |maps|
  {
    if maps == [] {
      assert (maps + [m])[1..] == [];
    } else {
      assert (maps + [m])[1..] == maps[1..] + [m];
      MergedSnoc(filter, base + Filtered(filter, maps[0]), maps[1..], m);
    }
  }

  lemma {:induction false} MergedTakesLast<V>(filter: string -> bool, base: map<string, V>, maps: seq<map<string, V>>,
    k: string)
    ensures var w := Winner(filter, base, maps, k);
            (k in Merged(filter, base, maps) <==> k in w) && (k in w ==> Merged(filter, base, maps)[k] == w[k])
    decreases |maps|
  {
    if maps != [] {
      var init, m := maps[..|maps| - 1], maps[|maps| - 1];
      assert maps == init + [m];
      MergedSnoc(filter, base, init, m);
      MergedTakesLast(filter, base, init, k);
    }
  }

  lemma {:induction false} WinnerShape<V>(filter: string -> bool, base: map<string, V>, other: map<string, V>,
    maps: seq<map<string, V>>, k: string)
    ensures Winner(filter, base, maps, k) == Winner(filter, other, maps, k)
         || (Winner(filter, base, maps, k) == base && Winner(filter, other, maps, k) == other)
    decreases |maps|
  {
    if maps != [] { WinnerShape(filter, base, other, maps[..|maps| - 1], k); }
  }

  // Merging again changes nothing.
  lemma MergeIsIdempotent<V>(filter: string -> bool, base: map<string, V>, maps: seq<map<string, V>>)
    ensures Merged(filter, Merged(filter, base, maps), maps) == Merged(filter, base, maps)
  {
    var once := Merged(filter, base, maps);
    var twice := Merged(filter, once, maps);
    forall k ensures (k in twice <==> k in once) && (k in once ==> twice[k] == once[k]) {
      MergedTakesLast(filter, base, maps, k);
      MergedTakesLast(filter, once, maps, k);
      WinnerShape(filter, base, once, maps, k);
    }
    assert twice.Keys == once.Keys;
  }

  // A value of the base survives a merge exactly when no passing entry replaces it.
  lemma BaseSurvives<V>(filter: string -> bool, base: map<string, V>, m: map<string, V>, k: string)
    requires k in base
    ensures k in Merged(filter, base, [m])
    ensures Merged(filter, base, [m])[k] == base[k] <==> !filter(k) || k !in m || m[k] == base[k]
  {
    assert [m][1..] == [];
    assert Merged(filter, base, [m]) == Merged(filter, base + Filtered(filter, m), []);
  }
}
