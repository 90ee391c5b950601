/**
 * What the two configuration profiles do to build their `plugins` array: a
 * literal list of unconditional identifiers followed by `push` calls, each
 * guarded by a condition on the environment. `Resolve` is the reference
 * reading of that shape; the lemmas give the ordering, membership, length and
 * distinctness facts any such list has. The npm naming convention of the
 * identifiers gives each one a role, used for the ordering the profiles'
 * comments demand (post types, then preset, then store, then endpoints).
 */
module Manifest {

  /** One guarded `push`: the identifier and whether its guard held. */
  datatype Conditional = Conditional(id: string, enabled: bool)

  /** The identifiers of the guarded pushes, in declaration order. */
  function Ids(cs: seq<Conditional>): seq<string> {
    seq(|cs|, k requires 0 <= k < |cs| => cs[k].id)
  }

  /** The identifiers whose guard held, in declaration order. */
  function Selected(cs: seq<Conditional>): seq<string> {
    if |cs| == 0 then []
    else Selected(cs[..|cs| - 1]) + (if cs[|cs| - 1].enabled then [cs[|cs| - 1].id] else [])
  }

  /** How many guards held. */
  function CountEnabled(cs: seq<Conditional>): nat {
    if |cs| == 0 then 0
    else CountEnabled(cs[..|cs| - 1]) + (if cs[|cs| - 1].enabled then 1 else 0)
  }

  /** The finished array: the literal, then every push whose guard held. */
  function Resolve(base: seq<string>, cs: seq<Conditional>): seq<string> {
    base + Selected(cs)
  }

  /** Everything that could be in the array, in declaration order. */
  function Declared(base: seq<string>, cs: seq<Conditional>): seq<string> {
    base + Ids(cs)
  }

  predicate Distinct(s: seq<string>) {
    forall i, j :: 0 <= i < j < |s| ==> s[i] != s[j]
  }

  /**
   * Where each selected identifier sits among the declared pushes: a strictly
   * increasing list of positions, each one naming an enabled push.
   */
  function Positions(cs: seq<Conditional>): (ps: seq<nat>)
    ensures |ps| == |Selected(cs)|
    ensures forall i :: 0 <= i < |ps| ==>
      ps[i] < |cs| && cs[ps[i]].enabled && Selected(cs)[i] == cs[ps[i]].id
    ensures forall i, j :: 0 <= i < j < |ps| ==> ps[i] < ps[j]
  {
    if |cs| == 0 then []
    else
      var n := |cs| - 1;
      var init := cs[..n];
      var rest := Positions(init);
      assert forall i :: 0 <= i < |rest| ==> cs[rest[i]] == init[rest[i]];
      rest + (if cs[n].enabled then [n] else [])
  }

  /** Appending one more guarded push. */
  lemma SelectedSnoc(cs: seq<Conditional>, c: Conditional)
    ensures Selected(cs + [c]) == Selected(cs) + (if c.enabled then [c.id] else [])
    ensures CountEnabled(cs + [c]) == CountEnabled(cs) + (if c.enabled then 1 else 0)
  {
    assert (cs + [c])[..|cs|] == cs;
  }

  /** What one guarded push adds. */
  function Pushed(c: Conditional): seq<string> {
    if c.enabled then [c.id] else []
  }

  /** Appending one guarded push to a list whose selection is already known. */
  lemma SelectedPush(cs: seq<Conditional>, c: Conditional, sel: seq<string>)
    requires Selected(cs) == sel
    ensures Selected(cs + [c]) == sel + Pushed(c)
  {
    SelectedSnoc(cs, c);
  }

  /** Five guarded pushes in a row, as the two profiles have them. */
  lemma {:induction false} SelectedFive(c0: Conditional, c1: Conditional, c2: Conditional, c3: Conditional, c4: Conditional)
    ensures Selected([c0, c1, c2, c3, c4]) == Pushed(c0) + Pushed(c1) + Pushed(c2) + Pushed(c3) + Pushed(c4)
    ensures CountEnabled([c0, c1, c2, c3, c4])
      == |Pushed(c0)| + |Pushed(c1)| + |Pushed(c2)| + |Pushed(c3)| + |Pushed(c4)|
  {
    var s1 := [c0];
    var s2 := s1 + [c1];
    var s3 := s2 + [c2];
    var s4 := s3 + [c3];
    SelectedPush([], c0, []);
    assert [] + [c0] == s1;
    SelectedPush(s1, c1, Pushed(c0));
    SelectedPush(s2, c2, Pushed(c0) + Pushed(c1));
    SelectedPush(s3, c3, Pushed(c0) + Pushed(c1) + Pushed(c2));
    SelectedPush(s4, c4, Pushed(c0) + Pushed(c1) + Pushed(c2) + Pushed(c3));
    assert s4 + [c4] == [c0, c1, c2, c3, c4];
    SelectedLength([c0, c1, c2, c3, c4]);
  }

  /** The literal followed by five pushes, one after the other, is the literal followed by all five. */
  lemma Regrouped(base: seq<string>, p0: seq<string>, p1: seq<string>, p2: seq<string>, p3: seq<string>, p4: seq<string>)
    ensures base + p0 + p1 + p2 + p3 + p4 == base + (p0 + p1 + p2 + p3 + p4)
  {
  }

  predicate Disjoint(a: seq<string>, b: seq<string>) {
    forall i, j :: 0 <= i < |a| && 0 <= j < |b| ==> a[i] != b[j]
  }

  /** The array is as long as the literal plus the number of guards that held. */
  lemma {:induction false} ResolveLength(base: seq<string>, cs: seq<Conditional>)
    ensures |Resolve(base, cs)| == |base| + CountEnabled(cs)
  {
    SelectedLength(cs);
  }

  lemma {:induction false} SelectedLength(cs: seq<Conditional>)
    ensures |Selected(cs)| == CountEnabled(cs)
  {
    if |cs| > 0 {
      SelectedLength(cs[..|cs| - 1]);
    }
  }

  /** The literal is a prefix of the array in every environment. */
  lemma ResolvePrefix(base: seq<string>, cs: seq<Conditional>)
    ensures |base| <= |Resolve(base, cs)| && Resolve(base, cs)[..|base|] == base
  {
  }

  /**
   * Order: the array is the declared list with the disabled pushes taken out;
   * the map from array positions to declared positions is strictly
   * increasing, so everything keeps its declared relative order.
   */
  function DeclaredPosition(base: seq<string>, cs: seq<Conditional>, i: nat): nat
    requires i < |Resolve(base, cs)|
  {
    if i < |base| then i else |base| + Positions(cs)[i - |base|]
  }

  lemma ResolveKeepsOrder(base: seq<string>, cs: seq<Conditional>)
    ensures forall i :: 0 <= i < |Resolve(base, cs)| ==>
      DeclaredPosition(base, cs, i) < |Declared(base, cs)|
      && Resolve(base, cs)[i] == Declared(base, cs)[DeclaredPosition(base, cs, i)]
    ensures forall i, j :: 0 <= i < j < |Resolve(base, cs)| ==>
      DeclaredPosition(base, cs, i) < DeclaredPosition(base, cs, j)
  {
    var r := Resolve(base, cs);
    var d := Declared(base, cs);
    forall i | 0 <= i < |r|
      ensures DeclaredPosition(base, cs, i) < |d| && r[i] == d[DeclaredPosition(base, cs, i)]
    {
      if i >= |base| {
        assert r[i] == Selected(cs)[i - |base|];
      }
    }
  }

  /** When nothing is declared twice, a pushed identifier found in the array sits where its push put it. */
  lemma PositionOf(base: seq<string>, cs: seq<Conditional>, i: nat, k: nat)
    requires Distinct(Declared(base, cs))
    requires i < |Resolve(base, cs)| && k < |cs| && Resolve(base, cs)[i] == cs[k].id
    ensures DeclaredPosition(base, cs, i) == |base| + k
    ensures i >= |base| && Positions(cs)[i - |base|] == k && cs[k].enabled
  {
    var d := Declared(base, cs);
    ResolveKeepsOrder(base, cs);
    var p := DeclaredPosition(base, cs, i);
    assert d[|base| + k] == cs[k].id;
    assert d[p] == d[|base| + k];
  }

  /**
   * Membership: when no identifier is declared twice, a pushed identifier is
   * in the array exactly when its guard held.
   */
  lemma ResolveMember(base: seq<string>, cs: seq<Conditional>, k: nat)
    requires Distinct(Declared(base, cs))
    requires k < |cs|
    ensures cs[k].id in Resolve(base, cs) <==> cs[k].enabled
  {
    var r := Resolve(base, cs);
    if cs[k].enabled {
      SelectedContains(cs, k);
    }
    if cs[k].id in r {
      var i :| 0 <= i < |r| && r[i] == cs[k].id;
      PositionOf(base, cs, i, k);
    }
  }

  lemma {:induction false} SelectedContains(cs: seq<Conditional>, k: nat)
    requires k < |cs| && cs[k].enabled
    ensures cs[k].id in Selected(cs)
  {
    if k < |cs| - 1 {
      SelectedContains(cs[..|cs| - 1], k);
    }
  }

  /** Distinct declarations give an array without duplicate identifiers. */
  lemma ResolveDistinct(base: seq<string>, cs: seq<Conditional>)
    requires Distinct(Declared(base, cs))
    ensures Distinct(Resolve(base, cs))
  {
    var r := Resolve(base, cs);
    ResolveKeepsOrder(base, cs);
    forall i, j | 0 <= i < j < |r| ensures r[i] != r[j] {
      assert DeclaredPosition(base, cs, i) < DeclaredPosition(base, cs, j);
    }
  }

  /**
   * Two consecutive pushes under the same guard land next to each other:
   * wherever the first identifier is, the second follows it directly.
   */
  lemma ResolveAdjacent(base: seq<string>, cs: seq<Conditional>, k: nat)
    requires Distinct(Declared(base, cs))
    requires k + 1 < |cs| && cs[k].enabled == cs[k + 1].enabled
    ensures forall i :: 0 <= i < |Resolve(base, cs)| && Resolve(base, cs)[i] == cs[k].id ==>
      i + 1 < |Resolve(base, cs)| && Resolve(base, cs)[i + 1] == cs[k + 1].id
  {
    forall i | 0 <= i < |Resolve(base, cs)| && Resolve(base, cs)[i] == cs[k].id
      ensures i + 1 < |Resolve(base, cs)| && Resolve(base, cs)[i + 1] == cs[k + 1].id
    {
      AdjacentAt(base, cs, k, i);
    }
  }

  lemma AdjacentAt(base: seq<string>, cs: seq<Conditional>, k: nat, i: nat)
    requires Distinct(Declared(base, cs))
    requires k + 1 < |cs| && cs[k].enabled == cs[k + 1].enabled
    requires i < |Resolve(base, cs)| && Resolve(base, cs)[i] == cs[k].id
    ensures i + 1 < |Resolve(base, cs)| && Resolve(base, cs)[i + 1] == cs[k + 1].id
  {
    var r := Resolve(base, cs);
    var sel := Selected(cs);
    assert r == base + sel;
    PositionOf(base, cs, i, k);
    SelectedContains(cs, k + 1);
    var j :| 0 <= j < |sel| && sel[j] == cs[k + 1].id;
    assert r[|base| + j] == sel[j];
    PositionOf(base, cs, |base| + j, k + 1);
    NextPosition(Positions(cs), i - |base|, j);
    assert r[i + 1] == sel[j];
  }

  /** In a strictly increasing list, the entry one greater than another comes right after it. */
  lemma NextPosition(ps: seq<nat>, a: nat, j: nat)
    requires forall x, y :: 0 <= x < y < |ps| ==> ps[x] < ps[y]
    requires a < |ps| && j < |ps| && ps[j] == ps[a] + 1
    ensures j == a + 1
  {
    assert a < j;
    assert ps[a] < ps[a + 1];
    assert ps[a + 1] >= ps[j];
  }

  /** Two duplicate-free lists with nothing in common concatenate to a duplicate-free list. */
  lemma DistinctConcat(a: seq<string>, b: seq<string>)
    requires Distinct(a) && Distinct(b) && Disjoint(a, b)
    ensures Distinct(a + b)
  {
    var s := a + b;
    forall i, j | 0 <= i < j < |s| ensures s[i] != s[j] {
      if j < |a| {
        assert s[i] == a[i] && s[j] == a[j];
      } else if i >= |a| {
        assert s[i] == b[i - |a|] && s[j] == b[j - |a|];
      } else {
        assert s[i] == a[i] && s[j] == b[j - |a|];
      }
    }
  }

  /**
   * The load order the profiles' comments demand: the first `postTypes`
   * entries are exactly the post types, the preset comes right after them and
   * the store right after the preset, so every post type precedes the preset,
   * which precedes the store, which precedes every endpoint.
   */
  predicate LoadOrdered(plugins: seq<string>, postTypes: seq<string>, preset: string, store: string) {
    && |postTypes| + 2 <= |plugins|
    && (forall i :: 0 <= i < |plugins| ==> (plugins[i] in postTypes <==> i < |postTypes|))
    && plugins[|postTypes|] == preset
    && plugins[|postTypes| + 1] == store
  }

  /** A duplicate-free array that starts with the post types, preset and store is load-ordered. */
  lemma LoadOrderOfPrefix(plugins: seq<string>, postTypes: seq<string>, preset: string, store: string)
    requires Distinct(plugins)
    requires |postTypes| + 2 <= |plugins| && plugins[..|postTypes|] == postTypes
    requires plugins[|postTypes|] == preset && plugins[|postTypes| + 1] == store
    ensures LoadOrdered(plugins, postTypes, preset, store)
  {
    forall i | 0 <= i < |plugins| ensures plugins[i] in postTypes <==> i < |postTypes| {
      if i < |postTypes| {
        assert plugins[i] == postTypes[i];
      }
    }
  }

  /**
   * The order facts for a literal laid out as post types, preset, store and
   * the rest: consecutive pushes `k` and `k + 1` under one guard stay side by
   * side, every identifier keeps its declared relative order, nothing appears
   * twice, and the array is load-ordered.
   */
  lemma ProfileOrder(postTypes: seq<string>, preset: string, store: string, rest: seq<string>, cs: seq<Conditional>, k: nat)
    requires Distinct(Declared(postTypes + [preset, store] + rest, cs))
    requires k + 1 < |cs| && cs[k].enabled == cs[k + 1].enabled
    ensures var base := postTypes + [preset, store] + rest;
      var plugins := Resolve(base, cs);
      && (forall i :: 0 <= i < |plugins| && plugins[i] == cs[k].id ==>
            i + 1 < |plugins| && plugins[i + 1] == cs[k + 1].id)
      && (forall i, j :: 0 <= i < j < |plugins| ==> DeclaredPosition(base, cs, i) < DeclaredPosition(base, cs, j))
      && Distinct(plugins)
      && LoadOrdered(plugins, postTypes, preset, store)
  {
    var base := postTypes + [preset, store] + rest;
    var plugins := Resolve(base, cs);
    ResolveDistinct(base, cs);
    ResolveKeepsOrder(base, cs);
    ResolveAdjacent(base, cs, k);
    assert plugins[..|postTypes|] == postTypes;
    assert plugins[|postTypes|] == preset && plugins[|postTypes| + 1] == store;
    LoadOrderOfPrefix(plugins, postTypes, preset, store);
  }
}
