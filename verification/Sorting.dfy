// The two in-place passes that bring designated entries to the front of a
// container's list (internal/resource/statefulset.go). Both swap while ranging
// over the very list they change.
module Sorting {
  datatype Entry = Entry(name: string, content: string)

  // Where an entry belongs, or -1 for one that may stand anywhere.
  function EnvSlot(e: Entry): (k: int)
    ensures -1 <= k <= 2
  {
    if e.name == "MY_POD_NAME" then 0
    else if e.name == "MY_POD_NAMESPACE" then 1
    else if e.name == "K8S_SERVICE_NAME" then 2
    else -1
  }

  function MountSlot(e: Entry): (k: int)
    ensures -1 <= k <= 1
  {
    if e.name == "rabbitmq-erlang-cookie" then 0
    else if e.name == "persistence" then 1
    else -1
  }

  function Swapped<T>(s: seq<T>, i: nat, j: nat): seq<T>
    requires i < |s| && j < |s|
  {
    s[i := s[j]][j := s[i]]
  }

  // Every slot an entry asks for exists: sortEnvVar and sortVolumeMounts index
  // without checking.
  predicate SlotsExist(s: seq<Entry>, slot: Entry -> int) {
    forall e :: e in s ==> slot(e) < |s|
  }

  // The list left by the pass that starts at index i.
  function SwapPass(s: seq<Entry>, slot: Entry -> int, i: nat): (t: seq<Entry>)
    requires SlotsExist(s, slot)
    ensures |t| == |s|
    decreases |s| - i
  {
    if i >= |s| then s
    else if slot(s[i]) < 0 then SwapPass(s, slot, i + 1)
    else SwapPass(Swapped(s, slot(s[i]), i), slot, i + 1)
  }

  method SortEnvVar(a: array<Entry>)
    requires SlotsExist(a[..], EnvSlot)
    modifies a
    ensures a[..] == SwapPass(old(a[..]), EnvSlot, 0)
  {
    for i := 0 to a.Length
      invariant SlotsExist(a[..], EnvSlot)
      invariant SwapPass(a[..], EnvSlot, i) == SwapPass(old(a[..]), EnvSlot, 0)
    {
      ghost var was := a[..];
      var e := a[i];
      assert e == was[i] && e in was;
      if e.name == "MY_POD_NAME" {
        a[0], a[i] := a[i], a[0];
        assert a[..] == Swapped(was, 0, i);
        continue;
      }
      if e.name == "MY_POD_NAMESPACE" {
        a[1], a[i] := a[i], a[1];
        assert a[..] == Swapped(was, 1, i);
        continue;
      }
      if e.name == "K8S_SERVICE_NAME" {
        a[2], a[i] := a[i], a[2];
        assert a[..] == Swapped(was, 2, i);
      }
    }
  }

  method SortVolumeMounts(a: array<Entry>)
    requires SlotsExist(a[..], MountSlot)
    modifies a
    ensures a[..] == SwapPass(old(a[..]), MountSlot, 0)
  {
    for i := 0 to a.Length
      invariant SlotsExist(a[..], MountSlot)
      invariant SwapPass(a[..], MountSlot, i) == SwapPass(old(a[..]), MountSlot, 0)
    {
      ghost var was := a[..];
      var m := a[i];
      assert m == was[i] && m in was;
      if m.name == "rabbitmq-erlang-cookie" {
        a[0], a[i] := a[i], a[0];
        assert a[..] == Swapped(was, 0, i);
        continue;
      }
      if m.name == "persistence" {
        a[1], a[i] := a[i], a[1];
        assert a[..] == Swapped(was, 1, i);
      }
    }
  }

  // Whatever the list, the pass only rearranges it.
  lemma {:induction false} PassPermutes(s: seq<Entry>, slot: Entry -> int, i: nat)
    requires SlotsExist(s, slot)
    ensures multiset(SwapPass(s, slot, i)) == multiset(s)
    decreases |s| - i
  {
    if i < |s| {
      if slot(s[i]) < 0 {
        PassPermutes(s, slot, i + 1);
      } else {
        PassPermutes(Swapped(s, slot(s[i]), i), slot, i + 1);
      }
    }
  }

  /* ---- where the designated entries end up ---- */

  // The entries of slots 0, 1, 2 stand exactly at a, b, c; c == -1 says that
  // slot 2 is not in use.
  predicate At(s: seq<Entry>, slot: Entry -> int, a: int, b: int, c: int) {
    && 0 <= a < |s| && 0 <= b < |s| && -1 <= c < |s| && a != b && a != c && b != c
    && forall j :: 0 <= j < |s| ==> slot(s[j]) == if j == a then 0 else if j == b then 1 else if j == c then 2 else -1
  }

  function Moved(x: int, p: int, q: int): int {
    if x == p then q else if x == q then p else x
  }

  datatype Places = Places(a: int, b: int, c: int)

  function Step(x: Places, i: int): Places {
    if i == x.a then Places(0, Moved(x.b, 0, i), Moved(x.c, 0, i))
    else if i == x.b then Places(Moved(x.a, 1, i), 1, Moved(x.c, 1, i))
    else if i == x.c then Places(Moved(x.a, 2, i), Moved(x.b, 2, i), 2)
    else x
  }

  function Final(x: Places, i: nat, n: nat): Places
    decreases n - i
  {
    if i >= n then x else Final(Step(x, i), i + 1, n)
  }

  lemma {:induction false} PassMovesPlaces(s: seq<Entry>, slot: Entry -> int, x: Places, i: nat)
    requires SlotsExist(s, slot) && At(s, slot, x.a, x.b, x.c)
    ensures var y := Final(x, i, |s|); At(SwapPass(s, slot, i), slot, y.a, y.b, y.c)
    decreases |s| - i
  {
    if i < |s| {
      var y := Step(x, i);
      var t := if slot(s[i]) < 0 then s else Swapped(s, slot(s[i]), i);
      StepMovesPlaces(s, slot, x, i);
      hide At, Step, Swapped;
      PassMovesPlaces(t, slot, y, i + 1);
    }
  }

  // A swap takes the designated entries along.
  lemma SwapMovesPlaces(s: seq<Entry>, slot: Entry -> int, x: Places, p: nat, i: nat)
    requires At(s, slot, x.a, x.b, x.c) && p < |s| && i < |s|
    ensures At(Swapped(s, p, i), slot, Moved(x.a, p, i), Moved(x.b, p, i), Moved(x.c, p, i))
  {
    var t := Swapped(s, p, i);
    forall j | 0 <= j < |t| ensures t[j] == s[Moved(j, p, i)] {}
    hide Swapped;
  }

  lemma StepMovesPlaces(s: seq<Entry>, slot: Entry -> int, x: Places, i: nat)
    requires SlotsExist(s, slot) && At(s, slot, x.a, x.b, x.c) && i < |s|
    ensures var y := Step(x, i); var t := if slot(s[i]) < 0 then s else Swapped(s, slot(s[i]), i);
            At(t, slot, y.a, y.b, y.c) && SlotsExist(t, slot)
  {
    assert slot(s[i]) == if i == x.a then 0 else if i == x.b then 1 else if i == x.c then 2 else -1;
    if slot(s[i]) >= 0 {
      SwapMovesPlaces(s, slot, x, slot(s[i]), i);
      var t := Swapped(s, slot(s[i]), i);
      forall e | e in t ensures e in s {}
      hide At, Swapped;
    }
  }

  // Past the first three indices an entry reaches its slot exactly when the
  // pass has yet to meet it or it is there already.
  lemma {:induction false} TailPlaces(x: Places, i: nat, n: nat)
    requires 3 <= i && x.a < n && x.b < n && x.c < n && 0 <= x.a && 0 <= x.b && -1 <= x.c
    requires x.a != x.b && x.a != x.c && x.b != x.c
    ensures var y := Final(x, i, n);
            && (y.a == 0 <==> x.a >= i || x.a == 0) && (y.b == 1 <==> x.b >= i || x.b == 1)
            && (y.c == 2 <==> x.c >= i || x.c == 2) && (y.c == -1 <==> x.c == -1)
    decreases n - i
  {
    if i < n { TailPlaces(Step(x, i), i + 1, n); }
  }

  // The arrangements on which three swaps chase one another.
  predicate Cycles(a: int, b: int, c: int) {
    || (c == 1 && a == 2 && b > 2)
    || (b == 0 && c == 1 && a > 2)
    || (c == 0 && b == 2 && a > 2)
  }

  lemma FinalPlaces(x: Places, n: nat)
    requires 0 <= x.a < n && 0 <= x.b < n && -1 <= x.c < n && x.a != x.b && x.a != x.c && x.b != x.c
    ensures x.c >= 0 ==> (Final(x, 0, n) == Places(0, 1, 2) <==> !Cycles(x.a, x.b, x.c))
    ensures x.c == -1 ==> Final(x, 0, n) == Places(0, 1, -1)
  {
    var x1 := Step(x, 0);
    var x2 := Step(x1, 1);
    assert Final(x, 0, n) == Final(x2, 2, n);
    if n > 2 {
      var x3 := Step(x2, 2);
      assert Final(x2, 2, n) == Final(x3, 3, n);
      TailPlaces(x3, 3, n);
    }
  }

  // sortVolumeMounts: with each mount listed once, in any two places, the
  // cookie ends at 0 and the persistence mount at 1.
  lemma MountsInOrder(s: seq<Entry>, a: int, b: int)
    requires At(s, MountSlot, a, b, -1)
    ensures SlotsExist(s, MountSlot)
    ensures At(SwapPass(s, MountSlot, 0), MountSlot, 0, 1, -1)
    ensures multiset(SwapPass(s, MountSlot, 0)) == multiset(s)
  {
    PassMovesPlaces(s, MountSlot, Places(a, b, -1), 0);
    FinalPlaces(Places(a, b, -1), |s|);
    PassPermutes(s, MountSlot, 0);
  }

  // sortEnvVar: with each variable listed once, the three end in front in
  // order exactly when they do not start in one of three cyclic arrangements.
  lemma EnvVarsInOrder(s: seq<Entry>, a: int, b: int, c: int)
    requires At(s, EnvSlot, a, b, c) && c >= 0
    ensures SlotsExist(s, EnvSlot)
    ensures At(SwapPass(s, EnvSlot, 0), EnvSlot, 0, 1, 2) <==> !Cycles(a, b, c)
    ensures multiset(SwapPass(s, EnvSlot, 0)) == multiset(s)
    ensures a < b < c ==> At(SwapPass(s, EnvSlot, 0), EnvSlot, 0, 1, 2)
  {
    var t, y := SwapPass(s, EnvSlot, 0), Final(Places(a, b, c), 0, |s|);
    PassMovesPlaces(s, EnvSlot, Places(a, b, c), 0);
    assert EnvSlot(t[y.a]) == 0 && EnvSlot(t[y.b]) == 1;
    assert y.c >= 0 ==> EnvSlot(t[y.c]) == 2;
    assert EnvSlot(t[2]) == 2 ==> y.c == 2;
    FinalPlaces(Places(a, b, c), |s|);
    PassPermutes(s, EnvSlot, 0);
  }

  // One failing list: MY_POD_NAME is left at index 3.
  lemma EnvVarsOutOfOrder(x: Entry)
    requires EnvSlot(x) == -1
    ensures var name, space := Entry("MY_POD_NAME", ""), Entry("MY_POD_NAMESPACE", "");
            var service := Entry("K8S_SERVICE_NAME", "");
            var s := [x, service, name, space];
            SlotsExist(s, EnvSlot) && |SwapPass(s, EnvSlot, 0)| == 4 && SwapPass(s, EnvSlot, 0)[3] == name
  {
    var name, space, service := Entry("MY_POD_NAME", ""), Entry("MY_POD_NAMESPACE", ""), Entry("K8S_SERVICE_NAME", "");
    var s := [x, service, name, space];
    assert At(s, EnvSlot, 2, 3, 1);
    PassMovesPlaces(s, EnvSlot, Places(2, 3, 1), 0);
    assert Final(Places(2, 3, 1), 0, 4) == Final(Places(2, 3, 1), 1, 4) == Final(Places(1, 3, 2), 2, 4);
    assert Final(Places(1, 3, 2), 2, 4) == Final(Places(1, 3, 2), 3, 4) == Places(3, 1, 2);
    var t := SwapPass(s, EnvSlot, 0);
    PassPermutes(s, EnvSlot, 0);
    assert t[3] in multiset(t);
  }
}
