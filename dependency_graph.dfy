/** Notions shared by the two dependency orderings (`internal/manager/manager.go`
    `sortByDependencies` and `internal/manager/loader.go` `ResolveDependencies`):
    plugin IDs, the prerequisites a manifest names that are actually present,
    the first required dependency that is missing, and strictly sorted
    sequences of IDs. */
module DependencyGraph {
  import opened Wrappers
  import opened Text
  import opened PluginManifest

  // ---------------------------------------------------------------------------
  // IDs

  function IdSet(ms: seq<Manifest>): set<string> {
    set m | m in ms :: m.id
  }

  predicate DistinctIds(ms: seq<Manifest>) {
    forall i, j :: 0 <= i < j < |ms| ==> ms[i].id != ms[j].id
  }

  predicate DistinctSeq(s: seq<string>) {
    forall i, j :: 0 <= i < j < |s| ==> s[i] != s[j]
  }

  /** The IDs of the manifests, in order. */
  function Ids(ms: seq<Manifest>): (r: seq<string>)
    ensures |r| == |ms| && forall i :: 0 <= i < |ms| ==> r[i] == ms[i].id
  {
    seq(|ms|, i requires 0 <= i < |ms| => ms[i].id)
  }

  function Elems(s: seq<string>): set<string> {
    set x | x in s
  }

  lemma {:induction false} ElemsBound(s: seq<string>)
    ensures |Elems(s)| <= |s|
    decreases |s|
  {
    if |s| > 0 {
      ElemsBound(s[..|s| - 1]);
      assert s == s[..|s| - 1] + [s[|s| - 1]];
      assert Elems(s) == Elems(s[..|s| - 1]) + {s[|s| - 1]};
    }
  }

  /** A sequence of distinct IDs has as many elements as its set, and one with
      a repeated ID has fewer. */
  lemma {:induction false} DistinctSeqCard(s: seq<string>)
    ensures DistinctSeq(s) <==> |Elems(s)| == |s|
    decreases |s|
  {
    if |s| > 0 {
      var init := s[..|s| - 1];
      var last := s[|s| - 1];
      assert s == init + [last];
      assert Elems(s) == Elems(init) + {last};
      ElemsBound(init);
      DistinctSeqCard(init);
      if DistinctSeq(s) {
        assert DistinctSeq(init) by {
          forall i, j | 0 <= i < j < |init| ensures init[i] != init[j] { assert init[i] == s[i] && init[j] == s[j]; }
        }
        assert last !in init by {
          forall k | 0 <= k < |init| ensures init[k] != last { assert init[k] == s[k]; }
        }
      } else {
        var i, j :| 0 <= i < j < |s| && s[i] == s[j];
        var rest := s[..j] + s[j + 1..];
        assert Elems(rest) == Elems(s) by {
          assert s == s[..j] + [s[j]] + s[j + 1..];
          assert s[j] in s[..j] by { assert s[..j][i] == s[i]; }
        }
        ElemsBound(rest);
      }
    }
  }

  lemma IdSetIsElems(ms: seq<Manifest>)
    ensures IdSet(ms) == Elems(Ids(ms))
    ensures DistinctIds(ms) <==> DistinctSeq(Ids(ms))
  {
    forall x | x in IdSet(ms) ensures x in Elems(Ids(ms)) {
      var m :| m in ms && m.id == x;
      var k :| 0 <= k < |ms| && ms[k] == m;
      assert Ids(ms)[k] == x;
    }
  }

  /** Plugin IDs are distinct exactly when there are as many as manifests. */
  lemma IdSetCard(ms: seq<Manifest>)
    ensures |IdSet(ms)| <= |ms|
    ensures DistinctIds(ms) <==> |IdSet(ms)| == |ms|
  {
    IdSetIsElems(ms);
    ElemsBound(Ids(ms));
    DistinctSeqCard(Ids(ms));
  }

  // ---------------------------------------------------------------------------
  // Prerequisites

  /** The IDs of the dependencies that are present, in order. */
  function DepIds(deps: seq<Dependency>, present: set<string>): (r: seq<string>)
    ensures forall p :: p in r ==> p in present
    decreases |deps|
  {
    if |deps| == 0 then []
    else
      var last := deps[|deps| - 1];
      DepIds(deps[..|deps| - 1], present) + (if last.id in present then [last.id] else [])
  }

  /** The `LoadAfter` IDs that are present, in order. */
  function AfterIds(after: seq<string>, present: set<string>): (r: seq<string>)
    ensures forall p :: p in r ==> p in present
    decreases |after|
  {
    if |after| == 0 then []
    else
      var last := after[|after| - 1];
      AfterIds(after[..|after| - 1], present) + (if last in present then [last] else [])
  }

  /** Everything a manifest must come after: its present dependencies, then
      its present `LoadAfter` IDs. Missing optional dependencies and missing
      `LoadAfter` IDs are dropped. */
  function PrereqIds(m: Manifest, present: set<string>): (r: seq<string>)
    ensures forall p :: p in r ==> p in present
  {
    DepIds(m.dependencies, present) + AfterIds(m.loadAfter, present)
  }

  lemma {:induction false} DepIdsMembers(deps: seq<Dependency>, present: set<string>, p: string)
    ensures p in DepIds(deps, present) <==> p in present && exists k :: 0 <= k < |deps| && deps[k].id == p
    decreases |deps|
  {
    if |deps| > 0 {
      DepIdsMembers(deps[..|deps| - 1], present, p);
      var init := deps[..|deps| - 1];
      assert forall k :: 0 <= k < |init| ==> init[k] == deps[k];
    }
  }

  lemma {:induction false} AfterIdsMembers(after: seq<string>, present: set<string>, p: string)
    ensures p in AfterIds(after, present) <==> p in present && p in after
    decreases |after|
  {
    if |after| > 0 {
      AfterIdsMembers(after[..|after| - 1], present, p);
      assert after == after[..|after| - 1] + [after[|after| - 1]];
    }
  }

  // ---------------------------------------------------------------------------
  // The first required dependency that is missing

  predicate IsMissing(dep: Dependency, present: set<string>) {
    !dep.optional && dep.id !in present
  }

  /** The ID of the first non-optional dependency not in `present`. */
  function MissingDep(deps: seq<Dependency>, present: set<string>): (r: Option<string>)
    ensures r.None? <==> forall k :: 0 <= k < |deps| ==> !IsMissing(deps[k], present)
    ensures r.Some? ==> exists k :: 0 <= k < |deps| && IsMissing(deps[k], present) && deps[k].id == r.value
                          && forall k' :: 0 <= k' < k ==> !IsMissing(deps[k'], present)
    decreases |deps|
  {
    if |deps| == 0 then None
    else if IsMissing(deps[0], present) then Some(deps[0].id)
    else
      var r := MissingDep(deps[1..], present);
      assert forall k :: 1 <= k < |deps| ==> deps[k] == deps[1..][k - 1];
      if r.Some? then
        assert exists k :: 0 <= k < |deps| && IsMissing(deps[k], present) && deps[k].id == r.value
                          && forall k' :: 0 <= k' < k ==> !IsMissing(deps[k'], present) by {
          var k :| 0 <= k < |deps[1..]| && IsMissing(deps[1..][k], present) && deps[1..][k].id == r.value
                   && forall k' :: 0 <= k' < k ==> !IsMissing(deps[1..][k'], present);
          assert deps[k + 1] == deps[1..][k];
          forall k' | 0 <= k' < k + 1 ensures !IsMissing(deps[k'], present) {
            if k' > 0 { assert deps[k'] == deps[1..][k' - 1]; }
          }
        }
        r
      else r
  }

  /** The first plugin, in input order, with a missing required dependency,
      and the ID of that dependency. */
  function FirstMissing(ms: seq<Manifest>, present: set<string>): (r: Option<(string, string)>)
    ensures r.None? <==> forall k :: 0 <= k < |ms| ==> MissingDep(ms[k].dependencies, present).None?
    ensures r.Some? ==> exists k :: 0 <= k < |ms| && MissingDep(ms[k].dependencies, present).Some?
                          && r.value == (ms[k].id, MissingDep(ms[k].dependencies, present).value)
                          && forall k' :: 0 <= k' < k ==> MissingDep(ms[k'].dependencies, present).None?
    decreases |ms|
  {
    if |ms| == 0 then None
    else match MissingDep(ms[0].dependencies, present)
      case Some(d) => Some((ms[0].id, d))
      case None =>
        var r := FirstMissing(ms[1..], present);
        assert forall k :: 1 <= k < |ms| ==> ms[k] == ms[1..][k - 1];
        if r.Some? then
          assert exists k :: 0 <= k < |ms| && MissingDep(ms[k].dependencies, present).Some?
                          && r.value == (ms[k].id, MissingDep(ms[k].dependencies, present).value)
                          && forall k' :: 0 <= k' < k ==> MissingDep(ms[k'].dependencies, present).None? by {
            var k :| 0 <= k < |ms[1..]| && MissingDep(ms[1..][k].dependencies, present).Some?
                     && r.value == (ms[1..][k].id, MissingDep(ms[1..][k].dependencies, present).value)
                     && forall k' :: 0 <= k' < k ==> MissingDep(ms[1..][k'].dependencies, present).None?;
            assert ms[k + 1] == ms[1..][k];
            forall k' | 0 <= k' < k + 1 ensures MissingDep(ms[k'].dependencies, present).None? {
              if k' > 0 { assert ms[k'] == ms[1..][k' - 1]; }
            }
          }
          r
        else r
  }

  /** Loop invariants of the checks that stop at the first missing dependency. */
  predicate NoneMissingBefore(deps: seq<Dependency>, j: nat, P: set<string>)
    requires j <= |deps|
  {
    forall k :: 0 <= k < j ==> !IsMissing(deps[k], P)
  }

  lemma NoneMissingStep(deps: seq<Dependency>, j: nat, P: set<string>)
    requires j < |deps| && NoneMissingBefore(deps, j, P)
    ensures IsMissing(deps[j], P) ==> MissingDep(deps, P) == Some(deps[j].id)
    ensures !IsMissing(deps[j], P) ==> NoneMissingBefore(deps, j + 1, P)
  {
  }

  predicate NoPluginMissingBefore(ms: seq<Manifest>, i: nat, P: set<string>)
    requires i <= |ms|
  {
    forall k :: 0 <= k < i ==> MissingDep(ms[k].dependencies, P).None?
  }

  lemma NoPluginMissingStep(ms: seq<Manifest>, i: nat, P: set<string>)
    requires i < |ms| && NoPluginMissingBefore(ms, i, P)
    ensures MissingDep(ms[i].dependencies, P).Some? ==>
      FirstMissing(ms, P) == Some((ms[i].id, MissingDep(ms[i].dependencies, P).value))
    ensures MissingDep(ms[i].dependencies, P).None? ==> NoPluginMissingBefore(ms, i + 1, P)
  {
  }

  /** Some element of `S` occurs in `order`: there is a first one. */
  lemma {:induction false} FirstIn(order: seq<string>, S: set<string>) returns (i: nat)
    requires exists x :: x in S && x in order
    ensures i < |order| && order[i] in S && forall j :: 0 <= j < i ==> order[j] !in S
    decreases |order|
  {
    if order[0] in S {
      i := 0;
    } else {
      var x :| x in S && x in order;
      assert x in order[1..];
      var i' := FirstIn(order[1..], S);
      i := i' + 1;
      forall j | 0 <= j < i ensures order[j] !in S {
        if j > 0 { assert order[j] == order[1..][j - 1]; }
      }
    }
  }

  // ---------------------------------------------------------------------------
  // Strictly sorted sequences of IDs (what `sort.Strings` produces)

  predicate StrictlySorted(q: seq<string>) {
    forall a, b :: 0 <= a < b < |q| ==> LexLess(q[a], q[b])
  }

  /** Sorting a sorted queue after appending a new ID: the ID goes in its place. */
  function InsertSorted(q: seq<string>, x: string): (r: seq<string>)
    requires StrictlySorted(q) && x !in q
    ensures StrictlySorted(r)
    ensures forall y :: y in r <==> y in q || y == x
    ensures |r| == |q| + 1
    decreases |q|
  {
    if |q| == 0 then [x]
    else
      LexTotal(x, q[0]);
      if LexLess(x, q[0]) then
        assert forall k :: 0 <= k < |q| ==> LexLess(x, q[k]) by {
          forall k | 0 <= k < |q| ensures LexLess(x, q[k]) { if k > 0 { LexTransitive(x, q[0], q[k]); } }
        }
        [x] + q
      else
        var rest := InsertSorted(q[1..], x);
        assert forall y :: y in rest ==> LexLess(q[0], y) by {
          forall y | y in rest ensures LexLess(q[0], y) {
            if y != x {
              var k :| 0 <= k < |q[1..]| && q[1..][k] == y;
              assert q[k + 1] == y;
            }
          }
        }
        var r := [q[0]] + rest;
        assert forall a, b :: 0 <= a < b < |r| ==> LexLess(r[a], r[b]) by {
          forall a, b | 0 <= a < b < |r| ensures LexLess(r[a], r[b]) {
            if a == 0 { assert r[b] in rest; } else { assert r[a] == rest[a - 1] && r[b] == rest[b - 1]; }
          }
        }
        assert q == [q[0]] + q[1..];
        r
  }

  /** The first element of a strictly sorted sequence is below every other. */
  lemma SortedHead(q: seq<string>, y: string)
    requires StrictlySorted(q) && |q| > 0 && y in q
    ensures y == q[0] || LexLess(q[0], y)
  {
  }

  lemma SortedDistinct(q: seq<string>)
    requires StrictlySorted(q)
    ensures DistinctSeq(q)
  {
    forall a, b | 0 <= a < b < |q| ensures q[a] != q[b] {
      if q[a] == q[b] { LexIrreflexive(q[a]); }
    }
  }
}
