// The list of enabled plugins and its text in the plugins ConfigMap
// (internal/resource/rabbitmq_plugins.go).
module Plugins {
  import opened Text

  const REQUIRED_PLUGINS: seq<string> := ["rabbitmq_peer_discovery_k8s", "rabbitmq_prometheus", "rabbitmq_management"]

  function FirstOccurrences(s: seq<string>): seq<string> {
    if s == [] then []
    else
      var init, last := s[..|s| - 1], s[|s| - 1];
      FirstOccurrences(init) + if last in init then [] else [last]
  }

  function Desired(additional: seq<string>): seq<string> {
    FirstOccurrences(REQUIRED_PLUGINS + additional)
  }

  method DesiredPlugins(additional: seq<string>) returns (enabled: seq<string>)
    ensures enabled == Desired(additional)
  {
    var all := REQUIRED_PLUGINS + additional;
    var check: set<string> := {};
    enabled := [];
    for i := 0 to |all|
      invariant check == set p | p in all[..i]
      invariant enabled == FirstOccurrences(all[..i])
    {
      assert all[..i + 1][..i] == all[..i];
      var p := all[i];
      if p !in check {
        check := check + {p};
        enabled := enabled + [p];
      }
      assert all[..i + 1] == all[..i] + [p];
    }
    assert all[..|all|] == all;
  }

  function StoredText(additional: seq<string>): string {
    "[" + Join(Desired(additional), ",") + "]."
  }

  /* ---- what the de-duplication keeps ---- */

  function FirstIndex(s: seq<string>, x: string): (k: nat)
    requires x in s
    ensures k < |s| && s[k] == x && x !in s[..k]
  {
    if s[0] == x then 0
    else
      assert s == [s[0]] + s[1..];
      var k := FirstIndex(s[1..], x);
      assert s[..k + 1] == [s[0]] + s[1..][..k];
      k + 1
  }

  lemma FirstIndexUnique(s: seq<string>, x: string, k: nat)
    requires k < |s| && s[k] == x && x !in s[..k]
    ensures FirstIndex(s, x) == k
  {
    var j := FirstIndex(s, x);
  }

  // The result has the elements of s, in the order of their first places in
  // s; the strict order leaves no room for a repetition.
  lemma {:induction false} KeepsFirstOccurrences(s: seq<string>)
    ensures var r := FirstOccurrences(s);
            && (forall x :: x in r <==> x in s)
            && (forall i, j :: 0 <= i < j < |r| ==> FirstIndex(s, r[i]) < FirstIndex(s, r[j]))
  {
    if s != [] {
      var init, last := s[..|s| - 1], s[|s| - 1];
      var q, r := FirstOccurrences(init), FirstOccurrences(s);
      KeepsFirstOccurrences(init);
      assert s == init + [last];
      forall x | x in init ensures FirstIndex(s, x) == FirstIndex(init, x) {
        var k := FirstIndex(init, x);
        assert s[..k] == init[..k];
        FirstIndexUnique(s, x, k);
      }
      if last !in init { FirstIndexUnique(s, last, |s| - 1); }
      forall i, j | 0 <= i < j < |r| ensures FirstIndex(s, r[i]) < FirstIndex(s, r[j]) {
        assert q[i] in q;
        if j < |q| { assert q[j] in q; }
      }
    }
  }

  lemma {:induction false} OccurrencesOfPrefix(s: seq<string>, t: seq<string>)
    ensures FirstOccurrences(s) <= FirstOccurrences(s + t)
    decreases |t|
  {
    if t == [] {
      assert s + t == s;
    } else {
      var u := s + t;
      assert u[..|u| - 1] == s + t[..|t| - 1];
      OccurrencesOfPrefix(s, t[..|t| - 1]);
    }
  }

  lemma RequiredAreDistinct()
    ensures FirstOccurrences(REQUIRED_PLUGINS) == REQUIRED_PLUGINS
  {
    var r := REQUIRED_PLUGINS;
    assert |r[0]| == 27 && |r[1]| == |r[2]| == 19 && r[1][9] != r[2][9];
    assert r[..2][..1] == r[..1] && r[..1][..0] == [];
    assert r[..1] == [r[0]] && FirstOccurrences(r[..1]) == [r[0]];
    assert r[..2] == [r[0], r[1]] && FirstOccurrences(r[..2]) == [r[0], r[1]];
    assert r == [r[0], r[1], r[2]] && r[..|r| - 1] == r[..2];
    assert r[2] !in r[..2];
    assert FirstOccurrences(r) == FirstOccurrences(r[..2]) + [r[2]];
  }

  // The required plugins head the list, whatever else is asked for.
  lemma RequiredComeFirst(additional: seq<string>)
    ensures REQUIRED_PLUGINS <= Desired(additional)
  {
    RequiredAreDistinct();
    OccurrencesOfPrefix(REQUIRED_PLUGINS, additional);
  }

  /* ---- when the stored text changes ---- */

  predicate WordChar(c: char) {
    'a' <= c <= 'z' || 'A' <= c <= 'Z' || '0' <= c <= '9' || c == '_'
  }

  // The pattern ^\w+$ the API server enforces on every plugin.
  predicate PluginName(p: string) {
    p != "" && forall c :: c in p ==> WordChar(c)
  }

  lemma RequiredAreNames()
    ensures forall p :: p in REQUIRED_PLUGINS ==> PluginName(p)
  {
  }

  lemma DesiredHasNoComma(additional: seq<string>)
    requires forall p :: p in additional ==> PluginName(p)
    ensures Desired(additional) != [] && forall p :: p in Desired(additional) ==> ',' !in p
  {
    RequiredAreNames();
    KeepsFirstOccurrences(REQUIRED_PLUGINS + additional);
    assert REQUIRED_PLUGINS[0] in REQUIRED_PLUGINS + additional;
  }

  // The ConfigMap's text tells two lists of enabled plugins apart, so an
  // update of the ConfigMap is an update of the list.
  lemma TextChangesWithList(p: seq<string>, q: seq<string>)
    requires forall x :: x in p || x in q ==> PluginName(x)
    ensures StoredText(p) == StoredText(q) <==> Desired(p) == Desired(q)
  {
    if StoredText(p) == StoredText(q) {
      DesiredHasNoComma(p);
      DesiredHasNoComma(q);
      var a, b := Join(Desired(p), ","), Join(Desired(q), ",");
      assert |StoredText(p)| == |a| + 3 && |StoredText(q)| == |b| + 3;
      assert StoredText(p)[1..|a| + 1] == a && StoredText(q)[1..|b| + 1] == b;
      JoinInjective(Desired(p), Desired(q), ',');
    }
  }

  lemma {:induction false} DropRepeat(s: seq<string>, x: string, t: seq<string>)
    requires x in s
    ensures FirstOccurrences(s + [x] + t) == FirstOccurrences(s + t)
    decreases |t|
  {
    var u := s + [x] + t;
    if t == [] {
      assert u[..|u| - 1] == s && s + t == s && u[|u| - 1] == x;
    } else {
      var v, t' := s + t, t[..|t| - 1];
      assert u[..|u| - 1] == s + [x] + t' && v[..|v| - 1] == s + t';
      assert u[|u| - 1] == v[|v| - 1] == t[|t| - 1];
      assert forall y :: y in s + [x] + t' <==> y in s + t';
      DropRepeat(s, x, t');
    }
  }

  // Naming again a required plugin, or one named before, leaves the text as it is.
  lemma RepeatsAreSilent(a: seq<string>, x: string, b: seq<string>)
    requires x in REQUIRED_PLUGINS || x in a
    ensures StoredText(a + [x] + b) == StoredText(a + b)
  {
    DropRepeat(REQUIRED_PLUGINS + a, x, b);
    assert REQUIRED_PLUGINS + (a + [x] + b) == REQUIRED_PLUGINS + a + [x] + b;
    assert REQUIRED_PLUGINS + (a + b) == REQUIRED_PLUGINS + a + b;
  }
}
