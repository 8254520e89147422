/** `Manager.sortByDependencies` (`internal/manager/manager.go`): Kahn's
    algorithm over the plugins found in the plugin directory. Each plugin must
    come after its present dependencies and its present `LoadAfter` plugins;
    among the plugins that are ready, the lexicographically smallest ID goes
    first. The graph is described by a list of edges `Edge(p, x)`, "x must come
    after p", in the order the source adds them. */
module DependencySort {
  import opened Wrappers
  import opened Text
  import opened PluginManifest
  import opened DependencyGraph

  datatype Edge = Edge(from: string, to: string)

  function EdgesTo(x: string, pre: seq<string>): (r: seq<Edge>)
    ensures |r| == |pre| && forall k :: 0 <= k < |pre| ==> r[k] == Edge(pre[k], x)
  {
    seq(|pre|, k requires 0 <= k < |pre| => Edge(pre[k], x))
  }

  /** The edges of the dependency graph, one per present prerequisite, in the
      order the source counts them. */
  function EdgesOf(ms: seq<Manifest>, present: set<string>): (r: seq<Edge>)
    ensures forall k :: 0 <= k < |r| ==> r[k].from in present && r[k].to in IdSet(ms)
    decreases |ms|
  {
    if |ms| == 0 then []
    else
      var init := ms[..|ms| - 1];
      var last := ms[|ms| - 1];
      assert forall m :: m in init ==> m in ms;
      EdgesOf(init, present) + EdgesTo(last.id, PrereqIds(last, present))
  }

  /** An edge `p -> x` is exactly a plugin `x` naming a present prerequisite `p`. */
  lemma {:induction false} EdgesOfMembers(ms: seq<Manifest>, present: set<string>, p: string, x: string)
    ensures Edge(p, x) in EdgesOf(ms, present) <==> exists m :: m in ms && m.id == x && p in PrereqIds(m, present)
    decreases |ms|
  {
    if |ms| > 0 {
      var init := ms[..|ms| - 1];
      var last := ms[|ms| - 1];
      EdgesOfMembers(init, present, p, x);
      assert ms == init + [last];
      var tail := EdgesTo(last.id, PrereqIds(last, present));
      assert Edge(p, x) in tail <==> x == last.id && p in PrereqIds(last, present) by {
        if x == last.id && p in PrereqIds(last, present) {
          var k :| 0 <= k < |PrereqIds(last, present)| && PrereqIds(last, present)[k] == p;
          assert tail[k] == Edge(p, x);
        }
      }
    }
  }

  // ---------------------------------------------------------------------------
  // Counting edges

  /** How many edges into `x` come from outside `S`: the in-degree of `x`
      once the plugins in `S` have been emitted. */
  function PendingIn(E: seq<Edge>, x: string, S: set<string>): nat
    decreases |E|
  {
    if |E| == 0 then 0
    else
      var e := E[|E| - 1];
      PendingIn(E[..|E| - 1], x, S) + (if e.to == x && e.from !in S then 1 else 0)
  }

  /** Every edge into `x` comes from `S`. */
  predicate Ready(E: seq<Edge>, x: string, S: set<string>) {
    forall k :: 0 <= k < |E| && E[k].to == x ==> E[k].from in S
  }

  lemma {:induction false} PendingZero(E: seq<Edge>, x: string, S: set<string>)
    ensures PendingIn(E, x, S) == 0 <==> Ready(E, x, S)
    decreases |E|
  {
    if |E| > 0 {
      var init := E[..|E| - 1];
      PendingZero(init, x, S);
      assert forall k :: 0 <= k < |init| ==> init[k] == E[k];
    }
  }

  /** The plugins that list `d` as a prerequisite, once per edge, in order. */
  function Targets(E: seq<Edge>, d: string): (r: seq<string>)
    decreases |E|
  {
    if |E| == 0 then []
    else
      var e := E[|E| - 1];
      Targets(E[..|E| - 1], d) + (if e.from == d then [e.to] else [])
  }

  function Occ(x: string, s: seq<string>): nat
    decreases |s|
  {
    if |s| == 0 then 0 else (if s[0] == x then 1 else 0) + Occ(x, s[1..])
  }

  lemma {:induction false} OccAppend(x: string, a: seq<string>, b: seq<string>)
    ensures Occ(x, a + b) == Occ(x, a) + Occ(x, b)
    decreases |a|
  {
    if |a| == 0 {
      assert a + b == b;
    } else {
      OccAppend(x, a[1..], b);
      assert (a + b)[0] == a[0];
      assert (a + b)[1..] == a[1..] + b;
    }
  }

  /** Emitting `d` removes from each in-degree exactly the edges `d -> x`. */
  lemma {:induction false} Release(E: seq<Edge>, x: string, S: set<string>, d: string)
    requires d !in S
    ensures PendingIn(E, x, S) == PendingIn(E, x, S + {d}) + Occ(x, Targets(E, d))
    decreases |E|
  {
    if |E| > 0 {
      var init := E[..|E| - 1];
      var e := E[|E| - 1];
      Release(init, x, S, d);
      OccAppend(x, Targets(init, d), if e.from == d then [e.to] else []);
      if e.from == d {
        assert Occ(x, [e.to]) == if e.to == x then 1 else 0 by {
          assert [e.to][1..] == [];
        }
      }
    }
  }

  lemma {:induction false} TargetsWithin(E: seq<Edge>, d: string, keys: set<string>)
    requires forall k :: 0 <= k < |E| ==> E[k].to in keys
    ensures forall t :: t in Targets(E, d) ==> t in keys
    decreases |E|
  {
    if |E| > 0 {
      var init := E[..|E| - 1];
      assert forall k :: 0 <= k < |init| ==> init[k] == E[k];
      TargetsWithin(init, d, keys);
    }
  }

  // ---------------------------------------------------------------------------
  // The maps the source keeps, against the edge list

  function LookupTargets(dependents: map<string, seq<string>>, d: string): seq<string> {
    if d in dependents then dependents[d] else []
  }

  /** The in-degree map the source builds: zero for each ID in `keys`, plus one
      for each edge into it. */
  function InDegrees(E: seq<Edge>, keys: set<string>): (r: map<string, int>)
    ensures r.Keys == keys
    decreases |E|
  {
    if |E| == 0 then map x | x in keys :: 0
    else
      var m := InDegrees(E[..|E| - 1], keys);
      var e := E[|E| - 1];
      if e.to in m then m[e.to := m[e.to] + 1] else m
  }

  /** The dependents map the source builds: each edge `p -> x` appends `x` to `p`'s list. */
  function DependentsOf(E: seq<Edge>): map<string, seq<string>>
    decreases |E|
  {
    if |E| == 0 then map[]
    else
      var m := DependentsOf(E[..|E| - 1]);
      var e := E[|E| - 1];
      m[e.from := LookupTargets(m, e.from) + [e.to]]
  }

  /** `inDegree` and `dependents` are what counting the edges `E` over the IDs `keys` gives. */
  predicate Tracks(inDegree: map<string, int>, dependents: map<string, seq<string>>, E: seq<Edge>, keys: set<string>) {
    inDegree == InDegrees(E, keys) && dependents == DependentsOf(E)
  }

  lemma {:induction false} InDegreesCount(E: seq<Edge>, keys: set<string>, x: string)
    requires x in keys
    ensures InDegrees(E, keys)[x] == PendingIn(E, x, {})
    decreases |E|
  {
    if |E| > 0 {
      InDegreesCount(E[..|E| - 1], keys, x);
    }
  }

  lemma {:induction false} DependentsTargets(E: seq<Edge>, d: string)
    ensures LookupTargets(DependentsOf(E), d) == Targets(E, d)
    decreases |E|
  {
    if |E| > 0 {
      DependentsTargets(E[..|E| - 1], d);
    }
  }

  /** A new ID with no edge into it starts at zero. */
  lemma {:induction false} InDegreesAddKey(E: seq<Edge>, keys: set<string>, id: string)
    requires forall k :: 0 <= k < |E| ==> E[k].to != id
    ensures InDegrees(E, keys + {id}) == InDegrees(E, keys)[id := 0]
    decreases |E|
  {
    if |E| > 0 {
      var init := E[..|E| - 1];
      assert forall k :: 0 <= k < |init| ==> init[k] == E[k];
      InDegreesAddKey(init, keys, id);
    }
  }

  /** Adding a key to the in-degree map: a new key starts at zero, since no
      counted edge can point at it yet; a known key changes nothing. */
  lemma TracksAddKey(inDegree: map<string, int>, dependents: map<string, seq<string>>, E: seq<Edge>,
                     keys: set<string>, id: string)
    requires Tracks(inDegree, dependents, E, keys)
    requires forall k :: 0 <= k < |E| ==> E[k].to in keys
    ensures id in inDegree <==> id in keys
    ensures id in keys ==> Tracks(inDegree, dependents, E, keys + {id})
    ensures id !in keys ==> Tracks(inDegree[id := 0], dependents, E, keys + {id})
  {
    if id in keys {
      assert keys + {id} == keys;
    } else {
      InDegreesAddKey(E, keys, id);
    }
  }

  lemma TracksAddEdge(inDegree: map<string, int>, dependents: map<string, seq<string>>, E: seq<Edge>, keys: set<string>, p: string, x: string)
    requires Tracks(inDegree, dependents, E, keys) && x in keys
    ensures Tracks(inDegree[x := inDegree[x] + 1], dependents[p := LookupTargets(dependents, p) + [x]], E + [Edge(p, x)], keys)
  {
    var E' := E + [Edge(p, x)];
    assert E'[..|E|] == E;
  }

  lemma EdgesOfSnoc(ms: seq<Manifest>, i: nat, P: set<string>)
    requires i < |ms|
    ensures EdgesOf(ms[..i + 1], P) == EdgesOf(ms[..i], P) + EdgesTo(ms[i].id, PrereqIds(ms[i], P))
    ensures IdSet(ms[..i + 1]) == IdSet(ms[..i]) + {ms[i].id}
  {
    assert ms[..i + 1][..i] == ms[..i];
    assert ms[..i + 1] == ms[..i] + [ms[i]];
  }

  lemma AppendAssoc(a: seq<Edge>, b: seq<Edge>, c: seq<Edge>)
    ensures (a + b) + c == a + (b + c)
  {
  }

  lemma EdgesToAppend(x: string, a: seq<string>, b: seq<string>)
    ensures EdgesTo(x, a + b) == EdgesTo(x, a) + EdgesTo(x, b)
  {
  }

  lemma EdgesToSnoc(x: string, a: seq<string>, p: string)
    ensures EdgesTo(x, a + [p]) == EdgesTo(x, a) + [Edge(p, x)]
  {
  }

  lemma DepIdsSnoc(deps: seq<Dependency>, j: nat, P: set<string>)
    requires j < |deps|
    ensures deps[j].id in P ==> DepIds(deps[..j + 1], P) == DepIds(deps[..j], P) + [deps[j].id]
    ensures deps[j].id !in P ==> DepIds(deps[..j + 1], P) == DepIds(deps[..j], P)
  {
    assert deps[..j + 1][..j] == deps[..j];
    assert DepIds(deps[..j], P) + [] == DepIds(deps[..j], P);
  }

  lemma AfterIdsSnoc(after: seq<string>, k: nat, P: set<string>)
    requires k < |after|
    ensures after[k] in P ==> AfterIds(after[..k + 1], P) == AfterIds(after[..k], P) + [after[k]]
    ensures after[k] !in P ==> AfterIds(after[..k + 1], P) == AfterIds(after[..k], P)
  {
    assert after[..k + 1][..k] == after[..k];
    assert AfterIds(after[..k], P) + [] == AfterIds(after[..k], P);
  }

  // ---------------------------------------------------------------------------
  // What the result must satisfy

  /** Every edge into `order[i]` comes from an earlier position. */
  predicate PrereqsFirst(order: seq<string>, E: seq<Edge>) {
    forall i :: 0 <= i < |order| ==> ReadyAt(E, order, i)
  }

  /** `order[i]` is ready once the plugins before it are emitted. */
  predicate ReadyAt(E: seq<Edge>, order: seq<string>, i: nat)
    requires i < |order|
  {
    Ready(E, order[i], Elems(order[..i]))
  }

  /** `x` is the lexicographically smallest plugin that is ready once `prefix`
      has been emitted. */
  predicate LeastReady(E: seq<Edge>, P: set<string>, prefix: seq<string>, x: string) {
    && x in P && x !in prefix && Ready(E, x, Elems(prefix))
    && forall y :: y in P && y !in prefix && Ready(E, y, Elems(prefix)) ==> y == x || LexLess(x, y)
  }

  /** A non-empty set of plugins each of which must come after another member:
      the set contains a dependency cycle, and no order can satisfy it. */
  ghost predicate CyclicSet(E: seq<Edge>, S: set<string>) {
    S != {} && forall x {:trigger HasPrereqIn(E, x, S)} :: x in S ==> HasPrereqIn(E, x, S)
  }

  /** No set of plugins is cyclic. */
  ghost predicate Acyclic(E: seq<Edge>) {
    forall S :: !CyclicSet(E, S)
  }

  lemma CycleRefutes(E: seq<Edge>, S: set<string>)
    requires CyclicSet(E, S)
    ensures !Acyclic(E)
  {
  }

  /** Every edge joins two plugins of `P`. */
  ghost predicate EdgesWithin(E: seq<Edge>, P: set<string>) {
    forall k :: 0 <= k < |E| ==> E[k].from in P && E[k].to in P
  }

  /** Some edge into `x` comes from `S`. */
  ghost predicate HasPrereqIn(E: seq<Edge>, x: string, S: set<string>) {
    exists k :: 0 <= k < |E| && E[k].to == x && E[k].from in S
  }

  /** A successful ordering: every plugin once, prerequisites first, and at
      every step the smallest ready ID. */
  predicate KahnOrder(ms: seq<Manifest>, out: seq<Manifest>) {
    var E := EdgesOf(ms, IdSet(ms));
    && |out| == |ms|
    && (forall k :: 0 <= k < |out| ==> out[k] in ms)
    && DistinctIds(out)
    && IdSet(out) == IdSet(ms)
    && PrereqsFirst(Ids(out), E)
    && forall i :: 0 <= i < |out| ==> LeastReadyAt(E, IdSet(ms), Ids(out), i)
  }

  /** `order[i]` is the smallest plugin ready once the plugins before it are emitted. */
  predicate LeastReadyAt(E: seq<Edge>, P: set<string>, order: seq<string>, i: nat)
    requires i < |order|
  {
    LeastReady(E, P, order[..i], order[i])
  }

  /** An order that puts prerequisites first and contains every target rules out
      a cycle. */
  lemma OrderedAcyclic(order: seq<string>, E: seq<Edge>, S: set<string>)
    requires PrereqsFirst(order, E)
    requires forall k :: 0 <= k < |E| ==> E[k].to in order
    ensures !CyclicSet(E, S)
  {
    if exists x :: x in S && x in order {
      // the member of S that comes first has no prerequisite in S
      var i := FirstIn(order, S);
      assert ReadyAt(E, order, i);
      forall k | 0 <= k < |E| && E[k].to == order[i] ensures E[k].from !in S {
        assert E[k].from in order[..i];
      }
      assert !HasPrereqIn(E, order[i], S);
    } else if S != {} {
      // a member of S that is not in the order has no incoming edge at all
      var x :| x in S;
      assert !HasPrereqIn(E, x, S);
    }
  }

  /** In a successful ordering each plugin comes after all its present
      dependencies and present `LoadAfter` plugins. */
  lemma DependenciesFirst(ms: seq<Manifest>, out: seq<Manifest>, i: nat, p: string)
    requires KahnOrder(ms, out)
    requires i < |out| && p in PrereqIds(out[i], IdSet(ms))
    ensures p in Ids(out)[..i]
  {
    EdgesOfMembers(ms, IdSet(ms), p, out[i].id);
    var E := EdgesOf(ms, IdSet(ms));
    var k :| 0 <= k < |E| && E[k] == Edge(p, out[i].id);
    assert E[k].to == Ids(out)[i];
    assert ReadyAt(E, Ids(out), i);
  }

  lemma SubsetCard(A: set<string>, B: set<string>)
    requires A <= B
    ensures |B - A| == |B| - |A|
    ensures |A| <= |B|
    ensures |A| == |B| ==> A == B
  {
    assert B == A + (B - A);
    if |A| == |B| {
      assert |B - A| == 0;
    }
  }

  // ---------------------------------------------------------------------------
  // The algorithm

  /** Adds one edge `p -> x`, as the source does: `inDegree[x]++` and
      `dependents[p] = append(dependents[p], x)`. */
  method AddEdge(p: string, x: string, inDegree0: map<string, int>, dependents0: map<string, seq<string>>,
                 ghost E0: seq<Edge>, ghost keys: set<string>)
    returns (inDegree: map<string, int>, dependents: map<string, seq<string>>)
    requires Tracks(inDegree0, dependents0, E0, keys) && x in keys
    ensures Tracks(inDegree, dependents, E0 + [Edge(p, x)], keys)
  {
    TracksAddEdge(inDegree0, dependents0, E0, keys, p, x);
    inDegree := inDegree0[x := inDegree0[x] + 1];
    dependents := dependents0[p := LookupTargets(dependents0, p) + [x]];
  }

  /** The dependency loop of one plugin: fails on the first required
      dependency that is missing, and counts an edge for each present one. */
  method AddDependencyEdges(id: string, deps: seq<Dependency>, P: set<string>, inDegree0: map<string, int>,
                            dependents0: map<string, seq<string>>, ghost E0: seq<Edge>, ghost keys: set<string>)
    returns (missing: Option<string>, inDegree: map<string, int>, dependents: map<string, seq<string>>)
    requires Tracks(inDegree0, dependents0, E0, keys) && id in keys
    ensures missing == MissingDep(deps, P)
    ensures missing.None? ==> Tracks(inDegree, dependents, E0 + EdgesTo(id, DepIds(deps, P)), keys)
  {
    inDegree, dependents := inDegree0, dependents0;
    ghost var E := E0;
    var j := 0;
    while j < |deps|
      invariant 0 <= j <= |deps|
      invariant NoneMissingBefore(deps, j, P)
      invariant E == E0 + EdgesTo(id, DepIds(deps[..j], P))
      invariant Tracks(inDegree, dependents, E, keys)
    {
      var dep := deps[j];
      if !dep.optional && dep.id !in P {
        return Some(dep.id), inDegree, dependents;
      }
      NoneMissingStep(deps, j, P);
      DepIdsSnoc(deps, j, P);
      if dep.id in P {
        inDegree, dependents := AddEdge(dep.id, id, inDegree, dependents, E, keys);
        EdgesToSnoc(id, DepIds(deps[..j], P), dep.id);
        AppendAssoc(E0, EdgesTo(id, DepIds(deps[..j], P)), [Edge(dep.id, id)]);
        E := E + [Edge(dep.id, id)];
      }
      j := j + 1;
    }
    assert deps[..j] == deps;
    missing := None;
    assert MissingDep(deps, P).None?;
  }

  /** The `LoadAfter` loop of one plugin: an edge for each present ID. */
  method AddLoadAfterEdges(id: string, after: seq<string>, P: set<string>, inDegree0: map<string, int>,
                           dependents0: map<string, seq<string>>, ghost E0: seq<Edge>, ghost keys: set<string>)
    returns (inDegree: map<string, int>, dependents: map<string, seq<string>>)
    requires Tracks(inDegree0, dependents0, E0, keys) && id in keys
    ensures Tracks(inDegree, dependents, E0 + EdgesTo(id, AfterIds(after, P)), keys)
  {
    inDegree, dependents := inDegree0, dependents0;
    ghost var E := E0;
    var k := 0;
    while k < |after|
      invariant 0 <= k <= |after|
      invariant E == E0 + EdgesTo(id, AfterIds(after[..k], P))
      invariant Tracks(inDegree, dependents, E, keys)
    {
      var p := after[k];
      AfterIdsSnoc(after, k, P);
      if p in P {
        inDegree, dependents := AddEdge(p, id, inDegree, dependents, E, keys);
        EdgesToSnoc(id, AfterIds(after[..k], P), p);
        AppendAssoc(E0, EdgesTo(id, AfterIds(after[..k], P)), [Edge(p, id)]);
        E := E + [Edge(p, id)];
      }
      k := k + 1;
    }
    assert after[..k] == after;
  }

  /** Counts the edges of one plugin: its dependencies, then its `LoadAfter` IDs. */
  method AddPluginEdges(m: Manifest, P: set<string>, inDegree0: map<string, int>,
                        dependents0: map<string, seq<string>>, ghost E0: seq<Edge>, ghost keys: set<string>)
    returns (missing: Option<string>, inDegree: map<string, int>, dependents: map<string, seq<string>>)
    requires Tracks(inDegree0, dependents0, E0, keys) && m.id in keys
    ensures missing == MissingDep(m.dependencies, P)
    ensures missing.None? ==> Tracks(inDegree, dependents, E0 + EdgesTo(m.id, PrereqIds(m, P)), keys)
  {
    missing, inDegree, dependents := AddDependencyEdges(m.id, m.dependencies, P, inDegree0, dependents0, E0, keys);
    if missing.None? {
      ghost var E1 := E0 + EdgesTo(m.id, DepIds(m.dependencies, P));
      inDegree, dependents := AddLoadAfterEdges(m.id, m.loadAfter, P, inDegree, dependents, E1, keys);
      EdgesToAppend(m.id, DepIds(m.dependencies, P), AfterIds(m.loadAfter, P));
      AppendAssoc(E0, EdgesTo(m.id, DepIds(m.dependencies, P)), EdgesTo(m.id, AfterIds(m.loadAfter, P)));
    }
  }

  /** One plugin of the counting phase: give it an in-degree entry if it has
      none, then count its dependency and `LoadAfter` edges. */
  method CountPlugin(ms: seq<Manifest>, i: nat, P: set<string>, inDegree0: map<string, int>,
                     dependents0: map<string, seq<string>>)
    returns (missing: Option<string>, inDegree: map<string, int>, dependents: map<string, seq<string>>)
    requires i < |ms| && Tracks(inDegree0, dependents0, EdgesOf(ms[..i], P), IdSet(ms[..i]))
    ensures missing == MissingDep(ms[i].dependencies, P)
    ensures missing.None? ==> Tracks(inDegree, dependents, EdgesOf(ms[..i + 1], P), IdSet(ms[..i + 1]))
  {
    var m := ms[i];
    ghost var E := EdgesOf(ms[..i], P);
    ghost var keys := IdSet(ms[..i]);
    EdgesOfSnoc(ms, i, P);
    TracksAddKey(inDegree0, dependents0, E, keys, m.id);
    inDegree := inDegree0;
    if m.id !in inDegree {
      inDegree := inDegree[m.id := 0];
    }
    missing, inDegree, dependents := AddPluginEdges(m, P, inDegree, dependents0, E, keys + {m.id});
  }

  /** The counting phase over all plugins. */
  method BuildGraph(ms: seq<Manifest>, P: set<string>)
    returns (missing: Option<(string, string)>, inDegree: map<string, int>, dependents: map<string, seq<string>>)
    ensures missing == FirstMissing(ms, P)
    ensures missing.None? ==> Tracks(inDegree, dependents, EdgesOf(ms, P), IdSet(ms))
  {
    inDegree, dependents := map[], map[];
    assert InDegrees([], {}) == map[];
    var i := 0;
    while i < |ms|
      invariant 0 <= i <= |ms|
      invariant NoPluginMissingBefore(ms, i, P)
      invariant Tracks(inDegree, dependents, EdgesOf(ms[..i], P), IdSet(ms[..i]))
    {
      var miss;
      miss, inDegree, dependents := CountPlugin(ms, i, P, inDegree, dependents);
      NoPluginMissingStep(ms, i, P);
      if miss.Some? {
        return Some((ms[i].id, miss.value)), inDegree, dependents;
      }
      i := i + 1;
    }
    assert ms[..i] == ms;
    missing := None;
  }

  /** The first queue: every plugin with no pending edge, sorted. The source
      reads them from a map in no fixed order and then sorts, so the queue
      does not depend on that order. */
  method InitialQueue(inDegree: map<string, int>) returns (queue: seq<string>)
    ensures StrictlySorted(queue)
    ensures forall x :: x in queue <==> x in inDegree && inDegree[x] == 0
  {
    queue := [];
    var rest := inDegree.Keys;
    while rest != {}
      invariant rest <= inDegree.Keys
      invariant StrictlySorted(queue)
      invariant forall x :: x in queue <==> x in inDegree && x !in rest && inDegree[x] == 0
      decreases rest
    {
      var id :| id in rest;
      rest := rest - {id};
      if inDegree[id] == 0 {
        queue := InsertSorted(queue, id);
      }
    }
  }

  /** The queue and the in-degrees once the plugins in `S` have been emitted:
      each in-degree counts the edges still pending, and the queue holds, sorted,
      exactly the plugins not yet emitted that have none. */
  ghost predicate QueueOK(E: seq<Edge>, P: set<string>, inDegree: map<string, int>, queue: seq<string>, S: set<string>) {
    && inDegree.Keys == P
    && (forall x :: x in P ==> inDegree[x] == PendingIn(E, x, S))
    && StrictlySorted(queue)
    && (forall x :: x in queue <==> x in P && x !in S && inDegree[x] == 0)
  }

  /** What the inner loop starts from: the in-degrees still include the edges
      out of the plugin just emitted, listed in `ds`. */
  ghost predicate ReleasePending(E: seq<Edge>, P: set<string>, inDegree: map<string, int>, queue: seq<string>,
                                 S: set<string>, ds: seq<string>) {
    && inDegree.Keys == P
    && (forall t :: t in ds ==> t in P)
    && (forall x :: x in P ==> inDegree[x] == PendingIn(E, x, S) + Occ(x, ds))
    && (forall y :: y in S ==> Occ(y, ds) == 0)
    && StrictlySorted(queue)
    && (forall x :: x in queue <==> x in P && x !in S && inDegree[x] == 0)
  }

  /** The plugins emitted so far: distinct, each ready when emitted and the
      smallest such. */
  ghost predicate EmittedOK(E: seq<Edge>, P: set<string>, emitted: seq<string>) {
    && DistinctSeq(emitted)
    && Elems(emitted) <= P
    && (forall y :: y in emitted ==> PendingIn(E, y, Elems(emitted)) == 0)
    && (forall n :: 0 <= n < |emitted| ==> LeastReadyAt(E, P, emitted, n))
  }

  /** The inner loop: decrement the in-degree of each dependent of the plugin
      just emitted, queueing those that reach zero. */
  method ReleaseDependents(ghost E: seq<Edge>, ghost P: set<string>, ghost S: set<string>, ds: seq<string>,
                           inDegree0: map<string, int>, queue0: seq<string>)
    returns (inDegree: map<string, int>, queue: seq<string>)
    requires ReleasePending(E, P, inDegree0, queue0, S, ds)
    ensures QueueOK(E, P, inDegree, queue, S)
  {
    inDegree, queue := inDegree0, queue0;
    var j := 0;
    while j < |ds|
      invariant 0 <= j <= |ds|
      invariant ReleasePending(E, P, inDegree, queue, S, ds[j..])
    {
      var dependent := ds[j];
      assert ds[j..][0] == dependent && ds[j..][1..] == ds[j + 1..];
      assert dependent in ds[j..];
      inDegree := inDegree[dependent := inDegree[dependent] - 1];
      if inDegree[dependent] == 0 {
        queue := InsertSorted(queue, dependent);
      }
      j := j + 1;
    }
    assert ds[j..] == [];
  }

  /** Popping the head of the queue: it is the smallest ready plugin, and
      the inner loop may start. */
  lemma PopStep(E: seq<Edge>, P: set<string>, inDegree: map<string, int>, queue: seq<string>, emitted: seq<string>)
    requires EdgesWithin(E, P)
    requires EmittedOK(E, P, emitted) && QueueOK(E, P, inDegree, queue, Elems(emitted)) && |queue| > 0
    ensures queue[0] in P && queue[0] !in emitted
    ensures EmittedOK(E, P, emitted + [queue[0]])
    ensures ReleasePending(E, P, inDegree, queue[1..], Elems(emitted + [queue[0]]), Targets(E, queue[0]))
  {
    var id := queue[0];
    var S0 := Elems(emitted);
    var e' := emitted + [id];
    var ds := Targets(E, id);
    assert Elems(e') == S0 + {id};
    LeastReadyHead(E, P, emitted, id, queue, inDegree);
    forall n | 0 <= n < |e'| ensures LeastReadyAt(E, P, e', n) {
      if n < |emitted| {
        assert e'[..n] == emitted[..n];
        assert LeastReadyAt(E, P, emitted, n);
      } else {
        assert e'[..n] == emitted;
      }
    }
    forall x | x in P ensures inDegree[x] == PendingIn(E, x, Elems(e')) + Occ(x, ds) {
      Release(E, x, S0, id);
    }
    forall y | y in e' ensures Occ(y, ds) == 0 && PendingIn(E, y, Elems(e')) == 0 {
      Release(E, y, S0, id);
    }
    assert forall t :: t in ds ==> t in P by {
      TargetsWithin(E, id, P);
    }
    SortedDistinct(queue);
    assert forall x :: x in queue[1..] <==> x in queue && x != id;
  }

  /** When the queue runs dry before every plugin is emitted, the rest form a cycle. */
  lemma KahnStuck(E: seq<Edge>, P: set<string>, inDegree: map<string, int>, emitted: seq<string>)
    requires EmittedOK(E, P, emitted) && QueueOK(E, P, inDegree, [], Elems(emitted))
    requires EdgesWithin(E, P)
    requires |Elems(emitted)| < |P|
    ensures CyclicSet(E, P - Elems(emitted))
  {
    var S := P - Elems(emitted);
    SubsetCard(Elems(emitted), P);
    forall x | x in S ensures HasPrereqIn(E, x, S) {
      PendingZero(E, x, Elems(emitted));
      assert !Ready(E, x, Elems(emitted));
      var k :| 0 <= k < |E| && E[k].to == x && E[k].from !in Elems(emitted);
      assert E[k].from in S;
    }
  }

  /** `manifestMap[m.ID] = m` for every manifest; a later manifest with the
      same ID replaces an earlier one. */
  method IndexById(ms: seq<Manifest>) returns (manifestMap: map<string, Manifest>)
    ensures manifestMap.Keys == IdSet(ms)
    ensures forall x :: x in manifestMap ==> manifestMap[x] in ms && manifestMap[x].id == x
  {
    manifestMap := map[];
    var i := 0;
    while i < |ms|
      invariant 0 <= i <= |ms|
      invariant manifestMap.Keys == IdSet(ms[..i])
      invariant forall x :: x in manifestMap ==> manifestMap[x] in ms && manifestMap[x].id == x
    {
      assert ms[..i + 1] == ms[..i] + [ms[i]];
      manifestMap := manifestMap[ms[i].id := ms[i]];
      i := i + 1;
    }
    assert ms[..i] == ms;
  }

  /** When the loop emits fewer plugins than there are manifests, either two
      manifests share an ID or the edges contain a cycle. */
  lemma KahnShort(ms: seq<Manifest>, E: seq<Edge>, P: set<string>, inDegree: map<string, int>, emitted: seq<string>)
    requires P == IdSet(ms) && EdgesWithin(E, P)
    requires EmittedOK(E, P, emitted) && QueueOK(E, P, inDegree, [], Elems(emitted))
    requires |emitted| != |ms|
    ensures !(DistinctIds(ms) && Acyclic(E))
  {
    if DistinctIds(ms) {
      IdSetCard(ms);
      DistinctSeqCard(emitted);
      SubsetCard(Elems(emitted), P);
      KahnStuck(E, P, inDegree, emitted);
      CycleRefutes(E, P - Elems(emitted));
    }
  }

  /** `sortByDependencies`. A missing required dependency is reported for the
      first plugin, in input order, that has one; otherwise the result is a
      Kahn ordering exactly when the IDs are distinct and there is no cycle,
      and "circular dependency detected" otherwise (a repeated ID included). */
  method SortByDependencies(ms: seq<Manifest>) returns (r: Result<seq<Manifest>, string>)
    ensures var miss := FirstMissing(ms, IdSet(ms));
      miss.Some? ==> r == Failure("plugin " + miss.value.0 + " requires missing dependency " + miss.value.1)
    ensures FirstMissing(ms, IdSet(ms)).None? ==>
      (r.Success? <==> DistinctIds(ms) && Acyclic(EdgesOf(ms, IdSet(ms))))
    ensures FirstMissing(ms, IdSet(ms)).None? && r.Failure? ==> r.error == "circular dependency detected"
    ensures r.Success? ==> KahnOrder(ms, r.value)
  {
    var manifestMap := IndexById(ms);
    var P := manifestMap.Keys;
    ghost var E := EdgesOf(ms, P);
    assert EdgesWithin(E, P);

    var missing, inDegree, dependents := BuildGraph(ms, P);
    if missing.Some? {
      return Failure("plugin " + missing.value.0 + " requires missing dependency " + missing.value.1);
    }

    var queue := InitialQueue(inDegree);
    KahnStart(E, P, inDegree, queue);
    var result;
    ghost var emitted;
    result, emitted, inDegree := KahnLoop(E, P, manifestMap, dependents, inDegree, queue);

    if |result| != |ms| {
      KahnShort(ms, E, P, inDegree, emitted);
      return Failure("circular dependency detected");
    }
    KahnDone(ms, E, P, result, emitted, manifestMap);
    return Success(result);
  }

  /** The manifests of the emitted IDs, in order: `result = append(result, manifestMap[id])`. */
  function Through(manifestMap: map<string, Manifest>, ids: seq<string>): (r: seq<Manifest>)
    requires Elems(ids) <= manifestMap.Keys
    ensures |r| == |ids| && forall k :: 0 <= k < |ids| ==> r[k] == manifestMap[ids[k]]
  {
    seq(|ids|, k requires 0 <= k < |ids| => manifestMap[ids[k]])
  }

  lemma ThroughSnoc(manifestMap: map<string, Manifest>, ids: seq<string>, id: string)
    requires Elems(ids) <= manifestMap.Keys && id in manifestMap
    ensures Elems(ids + [id]) == Elems(ids) + {id}
    ensures Through(manifestMap, ids + [id]) == Through(manifestMap, ids) + [manifestMap[id]]
  {
    assert Elems(ids + [id]) == Elems(ids) + {id};
  }

  /** The main loop: pop the smallest ready plugin, emit it, release its dependents. */
  method KahnLoop(ghost E: seq<Edge>, ghost P: set<string>, manifestMap: map<string, Manifest>,
                  dependents: map<string, seq<string>>, inDegree0: map<string, int>, queue0: seq<string>)
    returns (result: seq<Manifest>, ghost emitted: seq<string>, inDegree: map<string, int>)
    requires EdgesWithin(E, P) && manifestMap.Keys == P && dependents == DependentsOf(E)
    requires EmittedOK(E, P, []) && QueueOK(E, P, inDegree0, queue0, Elems([]))
    ensures EmittedOK(E, P, emitted) && QueueOK(E, P, inDegree, [], Elems(emitted))
    ensures Elems(emitted) <= P && result == Through(manifestMap, emitted)
  {
    var queue := queue0;
    inDegree := inDegree0;
    result := [];
    emitted := [];
    while |queue| > 0
      invariant EmittedOK(E, P, emitted) && QueueOK(E, P, inDegree, queue, Elems(emitted))
      invariant Elems(emitted) <= P && result == Through(manifestMap, emitted)
      decreases P - Elems(emitted)
    {
      PopStep(E, P, inDegree, queue, emitted);
      var id := queue[0];
      queue := queue[1..];
      ThroughSnoc(manifestMap, emitted, id);
      result := result + [manifestMap[id]];
      emitted := emitted + [id];
      DependentsTargets(E, id);
      inDegree, queue := ReleaseDependents(E, P, Elems(emitted), LookupTargets(dependents, id), inDegree, queue);
    }
  }

  lemma KahnStart(E: seq<Edge>, P: set<string>, inDegree: map<string, int>, queue: seq<string>)
    requires inDegree == InDegrees(E, P)
    requires StrictlySorted(queue) && forall x :: x in queue <==> x in inDegree && inDegree[x] == 0
    ensures EmittedOK(E, P, []) && QueueOK(E, P, inDegree, queue, Elems([]))
  {
    assert Elems([]) == {};
    forall x | x in P ensures inDegree[x] == PendingIn(E, x, {}) {
      InDegreesCount(E, P, x);
    }
  }

  /** When every plugin was emitted, the result is a Kahn ordering and no cycle exists. */
  lemma KahnDone(ms: seq<Manifest>, E: seq<Edge>, P: set<string>, result: seq<Manifest>, emitted: seq<string>,
                 manifestMap: map<string, Manifest>)
    requires P == IdSet(ms) && E == EdgesOf(ms, P) && manifestMap.Keys == P
    requires forall x :: x in manifestMap ==> manifestMap[x] in ms && manifestMap[x].id == x
    requires EmittedOK(E, P, emitted)
    requires Elems(emitted) <= P && result == Through(manifestMap, emitted) && |result| == |ms|
    ensures DistinctIds(ms) && KahnOrder(ms, result)
    ensures Acyclic(E)
  {
    var order := Ids(result);
    assert order == emitted;
    DistinctSeqCard(emitted);
    IdSetCard(ms);
    SubsetCard(Elems(emitted), P);
    IdSetIsElems(result);
    forall n | 0 <= n < |order| ensures ReadyAt(E, order, n) && LeastReadyAt(E, P, order, n) {
      assert LeastReadyAt(E, P, emitted, n);
    }
    forall S ensures !CyclicSet(E, S) {
      OrderedAcyclic(order, E, S);
    }
  }

  /** The head of the ready queue is the smallest ready plugin. */
  lemma LeastReadyHead(E: seq<Edge>, P: set<string>, emitted: seq<string>, id: string,
                       queue0: seq<string>, inDegree: map<string, int>)
    requires |queue0| > 0 && queue0[0] == id
    requires inDegree.Keys == P
    requires forall x :: x in P ==> inDegree[x] == PendingIn(E, x, Elems(emitted))
    requires StrictlySorted(queue0)
    requires forall x :: x in queue0 <==> x in P && x !in emitted && inDegree[x] == 0
    ensures LeastReady(E, P, emitted, id)
  {
    PendingZero(E, id, Elems(emitted));
    forall y | y in P && y !in emitted && Ready(E, y, Elems(emitted)) ensures y == id || LexLess(id, y) {
      PendingZero(E, y, Elems(emitted));
      SortedHead(queue0, y);
    }
  }
}
