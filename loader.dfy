/** `internal/manager/loader.go`: the load error and `ResolveDependencies`,
    which orders discovered plugins so that each comes after the plugins it
    depends on or loads after. It first rejects a missing required
    dependency, then runs a depth-first search from every plugin in input
    order, appending a plugin once everything it names is done and stopping
    at the first plugin it meets again while that plugin is still in
    progress. */
module Loader {
  import opened Wrappers
  import opened Text
  import opened PluginManifest
  import opened DependencyGraph

  // ---------------------------------------------------------------------------
  // The load error

  /** `LoadError`: the plugin, the path it was read from, and its cause's message. */
  datatype LoadError = LoadError(pluginId: string, path: string, err: string)

  /** `LoadError.Error`. */
  function LoadErrorMessage(e: LoadError): (r: string)
    ensures StartsWith(r, "failed to load plugin " + e.pluginId + " from " + e.path + ": ")
    ensures EndsWith(r, e.err)
    ensures |r| == 22 + |e.pluginId| + 6 + |e.path| + 2 + |e.err|
  {
    var head := "failed to load plugin " + e.pluginId + " from " + e.path + ": ";
    var r := head + e.err;
    assert r[..|head|] == head;
    assert r[|head|..] == e.err;
    r
  }

  /** `LoadError.Unwrap`: the cause. */
  function Unwrap(e: LoadError): (r: string)
    ensures EndsWith(LoadErrorMessage(e), r)
  {
    e.err
  }

  // ---------------------------------------------------------------------------
  // Discovered plugins and the plugin map

  /** `DiscoveredPlugin`: a manifest and where its files live. */
  datatype Discovered = Discovered(manifest: Manifest, wasmPath: string, dataPath: string)

  function Manifests(ps: seq<Discovered>): (r: seq<Manifest>)
    ensures |r| == |ps| && forall k :: 0 <= k < |ps| ==> r[k] == ps[k].manifest
  {
    seq(|ps|, k requires 0 <= k < |ps| => ps[k].manifest)
  }

  /** The IDs of a sequence of discovered plugins, in order. */
  function Keys(ds: seq<Discovered>): (r: seq<string>)
    ensures |r| == |ds| && forall k :: 0 <= k < |ds| ==> r[k] == ds[k].manifest.id
  {
    seq(|ds|, k requires 0 <= k < |ds| => ds[k].manifest.id)
  }

  lemma KeysSnoc(ds: seq<Discovered>, d: Discovered)
    ensures Keys(ds + [d]) == Keys(ds) + [d.manifest.id]
    ensures Elems(Keys(ds + [d])) == Elems(Keys(ds)) + {d.manifest.id}
  {
    assert Keys(ds + [d]) == Keys(ds) + [d.manifest.id];
  }

  /** `pluginMap`: every ID maps to a discovered plugin with that ID. */
  function ById(ps: seq<Discovered>): (r: map<string, Discovered>)
    ensures r.Keys == IdSet(Manifests(ps))
    ensures forall x :: x in r ==> r[x] in ps && r[x].manifest.id == x
    decreases |ps|
  {
    if |ps| == 0 then map[]
    else
      var init := ps[..|ps| - 1];
      var last := ps[|ps| - 1];
      assert Manifests(ps) == Manifests(init) + [last.manifest];
      assert forall d :: d in init ==> d in ps;
      ById(init)[last.manifest.id := last]
  }

  /** A later plugin with the same ID replaces an earlier one: the map holds
      the last plugin discovered with each ID. */
  lemma {:induction false} ByIdLast(ps: seq<Discovered>, k: nat)
    requires k < |ps| && forall j :: k < j < |ps| ==> ps[j].manifest.id != ps[k].manifest.id
    ensures ById(ps)[ps[k].manifest.id] == ps[k]
    decreases |ps|
  {
    if k < |ps| - 1 {
      var init := ps[..|ps| - 1];
      assert init[k] == ps[k];
      assert ps[|ps| - 1].manifest.id != ps[k].manifest.id;
      ByIdLast(init, k);
    }
  }

  /** With distinct IDs, each plugin is the one its ID maps to. */
  lemma {:induction false} ByIdDistinct(ps: seq<Discovered>, k: nat)
    requires DistinctIds(Manifests(ps)) && k < |ps|
    ensures ById(ps)[ps[k].manifest.id] == ps[k]
  {
    forall j | k < j < |ps| ensures ps[j].manifest.id != ps[k].manifest.id {
      assert Manifests(ps)[k].id != Manifests(ps)[j].id;
    }
    ByIdLast(ps, k);
  }

  /** The first loop of `ResolveDependencies`: `pluginMap[ID] = plugin`. */
  method IndexPlugins(ps: seq<Discovered>) returns (pluginMap: map<string, Discovered>)
    ensures pluginMap == ById(ps)
  {
    pluginMap := map[];
    var i := 0;
    while i < |ps|
      invariant 0 <= i <= |ps|
      invariant pluginMap == ById(ps[..i])
    {
      assert ps[..i + 1][..i] == ps[..i];
      pluginMap := pluginMap[ps[i].manifest.id := ps[i]];
      i := i + 1;
    }
    assert ps[..i] == ps;
  }

  // ---------------------------------------------------------------------------
  // The missing-dependency check

  function MissingMessage(pluginId: string, depId: string): (t: string)
    ensures |t| == |pluginId| + |depId| + 37
    ensures t[..7] == "plugin " && t[7..7 + |pluginId|] == pluginId && t[|t| - |depId|..] == depId
  {
    "plugin " + pluginId + " requires missing dependency: " + depId
  }

  /** The inner loop: the first required dependency not in the map. */
  method MissingIn(deps: seq<Dependency>, pluginMap: map<string, Discovered>) returns (missing: Option<string>)
    ensures missing == MissingDep(deps, pluginMap.Keys)
  {
    var j := 0;
    while j < |deps|
      invariant 0 <= j <= |deps|
      invariant NoneMissingBefore(deps, j, pluginMap.Keys)
    {
      NoneMissingStep(deps, j, pluginMap.Keys);
      if deps[j].id !in pluginMap && !deps[j].optional {
        return Some(deps[j].id);
      }
      j := j + 1;
    }
    return None;
  }

  /** The second loop: the first plugin, in input order, with a required
      dependency that was not discovered. */
  method CheckMissing(ps: seq<Discovered>, pluginMap: map<string, Discovered>)
    returns (missing: Option<(string, string)>)
    ensures missing == FirstMissing(Manifests(ps), pluginMap.Keys)
  {
    var ms := Manifests(ps);
    var i := 0;
    while i < |ps|
      invariant 0 <= i <= |ps|
      invariant NoPluginMissingBefore(ms, i, pluginMap.Keys)
    {
      var miss := MissingIn(ps[i].manifest.dependencies, pluginMap);
      NoPluginMissingStep(ms, i, pluginMap.Keys);
      if miss.Some? {
        return Some((ps[i].manifest.id, miss.value));
      }
      i := i + 1;
    }
    return None;
  }

  // ---------------------------------------------------------------------------
  // What the search must produce

  /** What a mapped plugin must come after: its present dependencies, then its
      present `LoadAfter` IDs. */
  function PrereqsOf(pm: map<string, Discovered>, x: string): (r: seq<string>)
    requires x in pm
    ensures forall p :: p in r ==> p in pm
  {
    PrereqIds(pm[x].manifest, pm.Keys)
  }

  /** Everything `order[i]` names comes before it. */
  predicate PlacedAt(pm: map<string, Discovered>, order: seq<string>, i: nat)
    requires i < |order|
  {
    order[i] in pm && forall p :: p in PrereqsOf(pm, order[i]) ==> p in order[..i]
  }

  predicate DepsFirst(pm: map<string, Discovered>, order: seq<string>) {
    forall i :: 0 <= i < |order| ==> PlacedAt(pm, order, i)
  }

  /** Every output entry is the plugin its ID maps to. */
  predicate FromMap(pm: map<string, Discovered>, ds: seq<Discovered>) {
    forall k :: 0 <= k < |ds| ==> ds[k].manifest.id in pm && pm[ds[k].manifest.id] == ds[k]
  }

  /** A successful resolution: each mapped plugin exactly once, as mapped, and
      after everything it names. */
  predicate Resolved(pm: map<string, Discovered>, out: seq<Discovered>) {
    && DistinctSeq(Keys(out))
    && Elems(Keys(out)) == pm.Keys
    && FromMap(pm, out)
    && DepsFirst(pm, Keys(out))
  }

  /** `x` names some member of `S`. */
  ghost predicate NamesOneOf(pm: map<string, Discovered>, x: string, S: set<string>) {
    x in pm && exists p :: p in S && p in PrereqsOf(pm, x)
  }

  /** A non-empty set of plugins each naming another member: a dependency cycle. */
  ghost predicate Cycle(pm: map<string, Discovered>, S: set<string>) {
    S != {} && forall x {:trigger NamesOneOf(pm, x, S)} :: x in S ==> NamesOneOf(pm, x, S)
  }

  ghost predicate NoCycle(pm: map<string, Discovered>) {
    forall S :: !Cycle(pm, S)
  }

  lemma CycleRefutes(pm: map<string, Discovered>, S: set<string>)
    requires Cycle(pm, S)
    ensures !NoCycle(pm)
  {
  }

  /** An order that places every mapped plugin after everything it names
      rules out a cycle. */
  lemma ResolvedAcyclic(pm: map<string, Discovered>, out: seq<Discovered>)
    requires Resolved(pm, out)
    ensures NoCycle(pm)
  {
    var order := Keys(out);
    forall S ensures !Cycle(pm, S) {
      if exists x :: x in S && x in order {
        // the member of S that comes first names no member of S
        var i := FirstIn(order, S);
        assert PlacedAt(pm, order, i);
        forall p | p in PrereqsOf(pm, order[i]) ensures p !in S {
          assert p in order[..i];
        }
        assert !NamesOneOf(pm, order[i], S);
      } else if S != {} {
        // a member of S outside the map names nothing
        var x :| x in S;
        assert x !in Elems(order);
        assert !NamesOneOf(pm, x, S);
      }
    }
  }

  /** With distinct IDs a resolution is a permutation of the input: the same
      number of entries and the same plugins. */
  lemma {:induction false} ResolvedPermutation(ps: seq<Discovered>, out: seq<Discovered>)
    requires DistinctIds(Manifests(ps)) && Resolved(ById(ps), out)
    ensures |out| == |ps|
    ensures forall d :: d in out <==> d in ps
  {
    var pm := ById(ps);
    DistinctSeqCard(Keys(out));
    IdSetCard(Manifests(ps));
    forall d | d in ps ensures d in out {
      var k :| 0 <= k < |ps| && ps[k] == d;
      ByIdDistinct(ps, k);
      assert Manifests(ps)[k].id == d.manifest.id;
      assert d.manifest.id in Elems(Keys(out));
      var j :| 0 <= j < |out| && Keys(out)[j] == d.manifest.id;
      assert out[j] == d;
    }
  }

  // ---------------------------------------------------------------------------
  // The depth-first search

  function CycleMessage(id: string): (t: string)
    ensures |t| == |id| + 40 && t[40..] == id
  {
    "circular dependency detected involving: " + id
  }

  /** `path[m + 1]` is named by `path[m]`. */
  predicate Linked(pm: map<string, Discovered>, path: seq<string>, m: nat)
    requires m + 1 < |path|
  {
    path[m] in pm && path[m + 1] in PrereqsOf(pm, path[m])
  }

  /** The calls in progress: each names the next. */
  predicate Chain(pm: map<string, Discovered>, path: seq<string>) {
    forall m :: 0 <= m < |path| - 1 ==> Linked(pm, path, m)
  }

  /** A search that meets `id` again while `id` is in progress, coming from
      the last call in progress, has walked round a cycle: the calls from
      `id` onwards. */
  lemma ClosePath(pm: map<string, Discovered>, path: seq<string>, id: string) returns (S: set<string>)
    requires Chain(pm, path) && |path| > 0 && Elems(path) <= pm.Keys
    requires id in path && id in PrereqsOf(pm, path[|path| - 1])
    ensures id in S && Cycle(pm, S)
  {
    var j :| 0 <= j < |path| && path[j] == id;
    S := Elems(path[j..]);
    assert path[j..][0] == id;
    forall x | x in S ensures NamesOneOf(pm, x, S) {
      var m :| j <= m < |path| && path[m] == x;
      if m + 1 < |path| {
        assert Linked(pm, path, m);
        assert path[m + 1] == path[j..][m + 1 - j];
      }
    }
  }

  /** Fewer of `K` are left unmarked once the marks `A` grow by a member of `K`. */
  lemma Shrinks(K: set<string>, A: set<string>, B: set<string>, x: string)
    requires A <= B && x in K && x in B && x !in A
    ensures K - B < K - A
  {
    assert x in (K - A) - (K - B);
  }

  /** The first `j` dependencies are done, where present. */
  predicate DepsDone(P: set<string>, visited: set<string>, deps: seq<Dependency>, j: nat)
    requires j <= |deps|
  {
    forall k :: 0 <= k < j && deps[k].id in P ==> deps[k].id in visited
  }

  /** The first `j` `LoadAfter` IDs are done, where present. */
  predicate AfterDone(P: set<string>, visited: set<string>, after: seq<string>, j: nat)
    requires j <= |after|
  {
    forall k :: 0 <= k < j && after[k] in P ==> after[k] in visited
  }

  lemma DepsDoneGrow(P: set<string>, before: set<string>, visited: set<string>, deps: seq<Dependency>, j: nat)
    requires j < |deps| && DepsDone(P, before, deps, j) && before <= visited
    requires deps[j].id in P ==> deps[j].id in visited
    ensures DepsDone(P, visited, deps, j + 1)
  {
  }

  lemma AfterDoneGrow(P: set<string>, before: set<string>, visited: set<string>, after: seq<string>, j: nat)
    requires j < |after| && AfterDone(P, before, after, j) && before <= visited
    requires after[j] in P ==> after[j] in visited
    ensures AfterDone(P, visited, after, j + 1)
  {
  }

  /** A present dependency is a prerequisite. */
  lemma DepNamed(pm: map<string, Discovered>, id: string, j: nat)
    requires id in pm && j < |pm[id].manifest.dependencies|
    ensures pm[id].manifest.dependencies[j].id in pm ==> pm[id].manifest.dependencies[j].id in PrereqsOf(pm, id)
  {
    var m := pm[id].manifest;
    DepIdsMembers(m.dependencies, pm.Keys, m.dependencies[j].id);
  }

  /** A present `LoadAfter` ID is a prerequisite. */
  lemma AfterNamed(pm: map<string, Discovered>, id: string, j: nat)
    requires id in pm && j < |pm[id].manifest.loadAfter|
    ensures pm[id].manifest.loadAfter[j] in pm ==> pm[id].manifest.loadAfter[j] in PrereqsOf(pm, id)
  {
    var m := pm[id].manifest;
    AfterIdsMembers(m.loadAfter, pm.Keys, m.loadAfter[j]);
  }

  /** Once every present dependency and `LoadAfter` ID is done, so is every
      prerequisite. */
  lemma PrereqsDone(m: Manifest, P: set<string>, visited: set<string>)
    requires DepsDone(P, visited, m.dependencies, |m.dependencies|)
    requires AfterDone(P, visited, m.loadAfter, |m.loadAfter|)
    ensures forall p :: p in PrereqIds(m, P) ==> p in visited
  {
    forall p | p in PrereqIds(m, P) ensures p in visited {
      DepIdsMembers(m.dependencies, P, p);
      AfterIdsMembers(m.loadAfter, P, p);
      if p in DepIds(m.dependencies, P) {
        var k :| 0 <= k < |m.dependencies| && m.dependencies[k].id == p;
      } else {
        assert p in AfterIds(m.loadAfter, P);
        var k :| 0 <= k < |m.loadAfter| && m.loadAfter[k] == p;
      }
    }
  }

  /** Every entry of the map is filed under its own ID. */
  predicate KeyedById(pm: map<string, Discovered>) {
    forall x :: x in pm ==> pm[x].manifest.id == x
  }

  /** The two marks hold only mapped IDs, and never both for one ID. */
  ghost predicate Marks(P: set<string>, visited: set<string>, visiting: set<string>) {
    visited <= P && visiting <= P && visited !! visiting
  }

  /** The calls in progress are exactly the plugins marked visiting, each
      naming the next. */
  ghost predicate Stack(pm: map<string, Discovered>, path: seq<string>, visiting: set<string>) {
    Elems(path) == visiting && Chain(pm, path)
  }

  /** The output so far: each finished plugin once, as mapped, after
      everything it names. */
  ghost predicate Output(pm: map<string, Discovered>, sorted: seq<Discovered>, visited: set<string>) {
    && DistinctSeq(Keys(sorted)) && Elems(Keys(sorted)) == visited
    && FromMap(pm, sorted) && DepsFirst(pm, Keys(sorted))
  }

  /** Entering a call for a mapped plugin named by the innermost call. */
  lemma Push(pm: map<string, Discovered>, path: seq<string>, visiting: set<string>, id: string)
    requires Stack(pm, path, visiting) && visiting <= pm.Keys && id in pm
    requires |path| > 0 ==> id in PrereqsOf(pm, path[|path| - 1])
    ensures Stack(pm, path + [id], visiting + {id})
  {
    var path' := path + [id];
    assert Elems(path') == Elems(path) + {id};
    forall m | 0 <= m < |path'| - 1 ensures Linked(pm, path', m) {
      if m < |path| - 1 {
        assert Linked(pm, path, m);
      } else {
        assert path'[m] == path[|path| - 1] && path[|path| - 1] in Elems(path);
      }
    }
  }

  /** Appending a plugin whose prerequisites are all finished keeps the output
      in order. */
  lemma Append(pm: map<string, Discovered>, sorted: seq<Discovered>, visited: set<string>, dp: Discovered)
    requires Output(pm, sorted, visited)
    requires dp.manifest.id in pm && pm[dp.manifest.id] == dp && dp.manifest.id !in visited
    requires forall p :: p in PrereqsOf(pm, dp.manifest.id) ==> p in visited
    ensures Output(pm, sorted + [dp], visited + {dp.manifest.id})
  {
    var id := dp.manifest.id;
    var before := Keys(sorted);
    KeysSnoc(sorted, dp);
    var order := Keys(sorted + [dp]);
    assert order[..|before|] == before;
    forall i | 0 <= i < |order| ensures PlacedAt(pm, order, i) {
      if i < |before| {
        assert PlacedAt(pm, before, i);
        assert order[..i] == before[..i];
      } else {
        forall p | p in PrereqsOf(pm, id) ensures p in order[..i] {
          assert p in Elems(before);
        }
      }
    }
    assert DistinctSeq(order) by {
      forall a, b | 0 <= a < b < |order| ensures order[a] != order[b] {
        if b == |before| { assert order[a] in Elems(before); }
      }
    }
  }

  /** The state the `visit` closure shares. `path` (ghost) lists the calls in
      progress, outermost first. */
  class Resolver {
    const pluginMap: map<string, Discovered>
    var visited: set<string>
    var visiting: set<string>
    var sorted: seq<Discovered>
    ghost var path: seq<string>

    ghost predicate Inv()
      reads this
    {
      && KeyedById(pluginMap)
      && Marks(pluginMap.Keys, visited, visiting)
      && Stack(pluginMap, path, visiting)
      && Output(pluginMap, sorted, visited)
    }

    constructor (pluginMap: map<string, Discovered>)
      requires KeyedById(pluginMap)
      ensures this.pluginMap == pluginMap
      ensures visited == {} && visiting == {} && sorted == [] && path == []
      ensures Inv()
    {
      this.pluginMap := pluginMap;
      visited, visiting, sorted := {}, {}, [];
      path := [];
    }

    /** `visit(id)`: on success `id` is finished (when it is mapped) and the
        calls in progress are as before; on failure a cycle through the
        reported ID exists. */
    method Visit(id: string) returns (err: Option<string>, ghost cycle: set<string>, ghost culprit: string)
      requires Inv()
      requires id in pluginMap && |path| > 0 ==> id in PrereqsOf(pluginMap, path[|path| - 1])
      modifies this
      ensures err.None? ==> Inv() && path == old(path) && visiting == old(visiting)
      ensures err.None? ==> old(visited) <= visited && (id in pluginMap ==> id in visited)
      ensures err.Some? ==> Cycle(pluginMap, cycle) && culprit in cycle && err.value == CycleMessage(culprit)
      decreases pluginMap.Keys - (visiting + visited), 1
    {
      cycle, culprit := {}, "";
      if id in visited {
        return None, cycle, culprit;
      }
      if id in visiting {
        cycle := ClosePath(pluginMap, path, id);
        return Some(CycleMessage(id)), cycle, id;
      }
      if id !in pluginMap {
        return None, cycle, culprit;
      }
      var dp := pluginMap[id];
      ghost var outer, outerVisiting := path, visiting;
      ghost var done := visiting + visited;
      Push(pluginMap, path, visiting, id);
      visiting := visiting + {id};
      path := path + [id];
      err, cycle, culprit := VisitDependencies(id, dp.manifest.dependencies, done);
      if err.Some? {
        return;
      }
      err, cycle, culprit := VisitLoadAfter(id, dp.manifest.loadAfter, done);
      if err.Some? {
        return;
      }
      PrereqsDone(dp.manifest, pluginMap.Keys, visited);
      assert dp.manifest.id == id && id in visiting;
      Append(pluginMap, sorted, visited, dp);
      assert visiting - {id} == outerVisiting;
      visiting := visiting - {id};
      path := outer;
      visited := visited + {id};
      sorted := sorted + [dp];
      return None, cycle, culprit;
    }

    /** The dependency loop of `visit(id)`, `id` being the innermost call in progress. */
    method VisitDependencies(id: string, deps: seq<Dependency>, ghost done: set<string>)
      returns (err: Option<string>, ghost cycle: set<string>, ghost culprit: string)
      requires Inv() && id in pluginMap && deps == pluginMap[id].manifest.dependencies
      requires |path| > 0 && path[|path| - 1] == id
      requires done <= visiting + visited && id !in done
      modifies this
      ensures err.None? ==> Inv() && path == old(path) && visiting == old(visiting) && old(visited) <= visited
      ensures err.None? ==> DepsDone(pluginMap.Keys, visited, deps, |deps|)
      ensures err.Some? ==> Cycle(pluginMap, cycle) && culprit in cycle && err.value == CycleMessage(culprit)
      decreases pluginMap.Keys - done, 0
    {
      err, cycle, culprit := None, {}, "";
      var j := 0;
      while j < |deps|
        invariant 0 <= j <= |deps| && err == None
        invariant Inv() && path == old(path) && visiting == old(visiting) && old(visited) <= visited
        invariant DepsDone(pluginMap.Keys, visited, deps, j)
      {
        DepNamed(pluginMap, id, j);
        Shrinks(pluginMap.Keys, done, visiting + visited, id);
        assert Inv();
        assert deps[j].id in pluginMap && |path| > 0 ==> deps[j].id in PrereqsOf(pluginMap, path[|path| - 1]);
        ghost var before := visited;
        err, cycle, culprit := Visit(deps[j].id);
        if err.Some? {
          return;
        }
        DepsDoneGrow(pluginMap.Keys, before, visited, deps, j);
        j := j + 1;
      }
    }

    /** The `LoadAfter` loop of `visit(id)`. */
    method VisitLoadAfter(id: string, after: seq<string>, ghost done: set<string>)
      returns (err: Option<string>, ghost cycle: set<string>, ghost culprit: string)
      requires Inv() && id in pluginMap && after == pluginMap[id].manifest.loadAfter
      requires |path| > 0 && path[|path| - 1] == id
      requires done <= visiting + visited && id !in done
      modifies this
      ensures err.None? ==> Inv() && path == old(path) && visiting == old(visiting) && old(visited) <= visited
      ensures err.None? ==> AfterDone(pluginMap.Keys, visited, after, |after|)
      ensures err.Some? ==> Cycle(pluginMap, cycle) && culprit in cycle && err.value == CycleMessage(culprit)
      decreases pluginMap.Keys - done, 0
    {
      err, cycle, culprit := None, {}, "";
      var j := 0;
      while j < |after|
        invariant 0 <= j <= |after| && err == None
        invariant Inv() && path == old(path) && visiting == old(visiting) && old(visited) <= visited
        invariant AfterDone(pluginMap.Keys, visited, after, j)
      {
        AfterNamed(pluginMap, id, j);
        Shrinks(pluginMap.Keys, done, visiting + visited, id);
        assert Inv();
        assert after[j] in pluginMap && |path| > 0 ==> after[j] in PrereqsOf(pluginMap, path[|path| - 1]);
        ghost var before := visited;
        err, cycle, culprit := Visit(after[j]);
        if err.Some? {
          return;
        }
        AfterDoneGrow(pluginMap.Keys, before, visited, after, j);
        j := j + 1;
      }
    }

    /** The last loop of `ResolveDependencies`: visit every plugin in turn. */
    method VisitAll(plugins: seq<Discovered>) returns (err: Option<string>, ghost cycle: set<string>, ghost culprit: string)
      requires Inv() && path == [] && visiting == {} && pluginMap.Keys == IdSet(Manifests(plugins))
      modifies this
      ensures err.None? ==> Inv() && visited == pluginMap.Keys
      ensures err.Some? ==> Cycle(pluginMap, cycle) && culprit in cycle && err.value == CycleMessage(culprit)
    {
      err, cycle, culprit := None, {}, "";
      var i := 0;
      while i < |plugins|
        invariant 0 <= i <= |plugins| && err == None
        invariant Inv() && path == [] && visiting == {}
        invariant FinishedPrefix(plugins, i, visited)
      {
        err, cycle, culprit := Visit(plugins[i].manifest.id);
        if err.Some? {
          return;
        }
        assert FinishedPrefix(plugins, i + 1, visited);
        i := i + 1;
      }
      AllFinished(plugins, visited);
    }

  }

  /** Every ID of `ps[..i]` is finished. */
  ghost predicate FinishedPrefix(ps: seq<Discovered>, i: nat, visited: set<string>)
    requires i <= |ps|
  {
    forall k :: 0 <= k < i ==> ps[k].manifest.id in visited
  }

  /** Once every plugin's ID is finished, every mapped ID is. */
  lemma AllFinished(ps: seq<Discovered>, visited: set<string>)
    requires FinishedPrefix(ps, |ps|, visited)
    ensures IdSet(Manifests(ps)) <= visited
  {
    forall x | x in IdSet(Manifests(ps)) ensures x in visited {
      var m :| m in Manifests(ps) && m.id == x;
      var k :| 0 <= k < |ps| && Manifests(ps)[k] == m;
    }
  }

  /** `ResolveDependencies`: index the plugins by ID, reject the first
      required dependency that is not discovered, then visit every plugin
      depth first. The result lists each mapped plugin once, after everything
      it names; it fails exactly when the plugins name each other in a cycle. */
  method ResolveDependencies(plugins: seq<Discovered>)
    returns (r: Result<seq<Discovered>, string>, ghost cycle: set<string>, ghost culprit: string)
    ensures var missing := FirstMissing(Manifests(plugins), IdSet(Manifests(plugins)));
      missing.Some? ==> r == Failure(MissingMessage(missing.value.0, missing.value.1))
    ensures FirstMissing(Manifests(plugins), IdSet(Manifests(plugins))).None? ==>
      (r.Success? <==> NoCycle(ById(plugins)))
    ensures r.Success? ==> Resolved(ById(plugins), r.value)
    ensures r.Failure? && FirstMissing(Manifests(plugins), IdSet(Manifests(plugins))).None? ==>
      Cycle(ById(plugins), cycle) && culprit in cycle && r.error == CycleMessage(culprit)
  {
    cycle, culprit := {}, "";
    var pluginMap := IndexPlugins(plugins);
    var missing := CheckMissing(plugins, pluginMap);
    if missing.Some? {
      return Failure(MissingMessage(missing.value.0, missing.value.1)), cycle, culprit;
    }
    var res := new Resolver(pluginMap);
    var err;
    err, cycle, culprit := res.VisitAll(plugins);
    if err.Some? {
      CycleRefutes(pluginMap, cycle);
      return Failure(err.value), cycle, culprit;
    }
    r := Success(res.sorted);
    ResolvedAcyclic(pluginMap, res.sorted);
  }
}
