/**
  The dependency correlation key (cmdb/application.py): a worklist search from
  one asset over the active dependency relations, stopped at 200 assets, whose
  key must name the asset's connected component.

  Asset ids are numbers: the canonical text of a UUID sorts as its value does.
 */
module CorrelationKey {
  import opened Wrappers

  type Time = int
  type AssetId = nat

  const MAX_COMPONENT := 200

  datatype Relation = Relation(source: AssetId, target: AssetId, relationType: string, expiresAt: Option<Time>)

  datatype Edge = Edge(source: AssetId, target: AssetId)

  datatype Key = AssetKey(asset: AssetId, service: string) | DependencyKey(root: AssetId, service: string)

  /** A dependency between two assets of the project that are not retired, in force now. */
  predicate Active(live: set<AssetId>, r: Relation, now: Time) {
    && r.source in live && r.target in live
    && r.relationType in {"DEPENDS_ON", "RUNS_ON", "CONNECTS_TO", "STORES_DATA_IN", "EXPOSES"}
    && (r.expiresAt.None? || r.expiresAt.value > now)
  }

  /** The rows the relation query returns. */
  function ActiveEdges(live: set<AssetId>, relations: seq<Relation>, now: Time): (edges: seq<Edge>)
    ensures forall i :: 0 <= i < |edges| ==> edges[i].source in live && edges[i].target in live
  {
    if relations == [] then []
    else
      var r := relations[|relations| - 1];
      ActiveEdges(live, relations[..|relations| - 1], now)
        + (if Active(live, r, now) then [Edge(r.source, r.target)] else [])
  }

  // -------------------------------------------------------------- connectivity

  predicate Adjacent(edges: seq<Edge>, x: AssetId, y: AssetId) {
    exists i :: 0 <= i < |edges| && (edges[i] == Edge(x, y) || edges[i] == Edge(y, x))
  }

  predicate IsPath(edges: seq<Edge>, path: seq<AssetId>) {
    |path| > 0 && forall i :: 0 <= i < |path| - 1 ==> Adjacent(edges, path[i], path[i + 1])
  }

  predicate PathBetween(edges: seq<Edge>, path: seq<AssetId>, x: AssetId, y: AssetId) {
    IsPath(edges, path) && path[0] == x && path[|path| - 1] == y
  }

  ghost predicate Connected(edges: seq<Edge>, x: AssetId, y: AssetId) {
    exists path :: PathBetween(edges, path, x, y)
  }

  function Endpoints(edges: seq<Edge>): set<AssetId> {
    (set i | 0 <= i < |edges| :: edges[i].source) + (set i | 0 <= i < |edges| :: edges[i].target)
  }

  /** The connected component of an asset. */
  ghost function Component(edges: seq<Edge>, x: AssetId): (component: set<AssetId>)
    ensures x in component
  {
    ConnectedSelf(edges, x);
    set y | y in Endpoints(edges) + {x} && Connected(edges, x, y)
  }

  lemma ConnectedSelf(edges: seq<Edge>, x: AssetId)
    ensures Connected(edges, x, x)
  {
    assert PathBetween(edges, [x], x, x);
  }

  lemma ConnectedStep(edges: seq<Edge>, x: AssetId, y: AssetId, z: AssetId)
    requires Connected(edges, x, y) && Adjacent(edges, y, z)
    ensures Connected(edges, x, z)
  {
    var path :| PathBetween(edges, path, x, y);
    assert PathBetween(edges, path + [z], x, z);
  }

  lemma ConnectedSymmetric(edges: seq<Edge>, x: AssetId, y: AssetId)
    requires Connected(edges, x, y)
    ensures Connected(edges, y, x)
  {
    var path :| PathBetween(edges, path, x, y);
    var back := seq(|path|, i requires 0 <= i < |path| => path[|path| - 1 - i]);
    forall i | 0 <= i < |back| - 1
      ensures Adjacent(edges, back[i], back[i + 1])
    {
      assert Adjacent(edges, path[|path| - 2 - i], path[|path| - 1 - i]);
    }
    assert PathBetween(edges, back, y, x);
  }

  lemma ConnectedTransitive(edges: seq<Edge>, x: AssetId, y: AssetId, z: AssetId)
    requires Connected(edges, x, y) && Connected(edges, y, z)
    ensures Connected(edges, x, z)
  {
    var p :| PathBetween(edges, p, x, y);
    var q :| PathBetween(edges, q, y, z);
    var path := p + q[1..];
    forall i | 0 <= i < |path| - 1
      ensures Adjacent(edges, path[i], path[i + 1])
    {
      if i < |p| - 1 {
        assert path[i] == p[i] && path[i + 1] == p[i + 1];
      } else {
        assert path[i] == q[i - (|p| - 1)] && path[i + 1] == q[i - (|p| - 1) + 1];
      }
    }
    assert PathBetween(edges, path, x, z);
  }

  lemma AdjacentEndpoints(edges: seq<Edge>, x: AssetId, y: AssetId)
    requires Adjacent(edges, x, y)
    ensures x in Endpoints(edges) && y in Endpoints(edges)
  {
    var i :| 0 <= i < |edges| && (edges[i] == Edge(x, y) || edges[i] == Edge(y, x));
    assert edges[i].source in Endpoints(edges) && edges[i].target in Endpoints(edges);
  }

  /** Whatever is connected to an asset lies in its component. */
  lemma ComponentComplete(edges: seq<Edge>, x: AssetId, y: AssetId)
    requires Connected(edges, x, y)
    ensures y in Component(edges, x)
  {
    var path :| PathBetween(edges, path, x, y);
    if |path| > 1 {
      assert Adjacent(edges, path[|path| - 2], path[|path| - 1]);
      AdjacentEndpoints(edges, path[|path| - 2], y);
    }
  }

  /** A set that contains the start and is closed under adjacency contains the component. */
  lemma {:induction false} ClosedContainsPath(edges: seq<Edge>, closed: set<AssetId>, path: seq<AssetId>)
    requires IsPath(edges, path) && path[0] in closed
    requires forall x, y :: x in closed && Adjacent(edges, x, y) ==> y in closed
    ensures path[|path| - 1] in closed
  {
    if |path| > 1 {
      assert Adjacent(edges, path[0], path[1]);
      ClosedContainsPath(edges, closed, path[1..]);
    }
  }

  lemma ClosedContainsComponent(edges: seq<Edge>, x: AssetId, closed: set<AssetId>)
    requires x in closed
    requires forall y, z :: y in closed && Adjacent(edges, y, z) ==> z in closed
    ensures Component(edges, x) <= closed
  {
    forall y | y in Component(edges, x)
      ensures y in closed
    {
      var path :| PathBetween(edges, path, x, y);
      ClosedContainsPath(edges, closed, path);
    }
  }

  lemma SameComponent(edges: seq<Edge>, x: AssetId, y: AssetId)
    requires Connected(edges, x, y)
    ensures Component(edges, x) == Component(edges, y)
  {
    ConnectedSymmetric(edges, x, y);
    forall z
      ensures z in Component(edges, x) <==> z in Component(edges, y)
    {
      if z in Component(edges, x) {
        ConnectedTransitive(edges, y, x, z);
        ComponentComplete(edges, y, z);
      }
      if z in Component(edges, y) {
        ConnectedTransitive(edges, x, y, z);
        ComponentComplete(edges, x, z);
      }
    }
  }

  // --------------------------------------------------------------------- search

  /** The adjacency dictionary agrees with the edges. */
  ghost predicate Represents(graph: map<AssetId, set<AssetId>>, edges: seq<Edge>) {
    forall x: AssetId, y: AssetId :: y in Neighbors(graph, x) <==> Adjacent(edges, x, y)
  }

  function Neighbors(graph: map<AssetId, set<AssetId>>, x: AssetId): set<AssetId> {
    if x in graph then graph[x] else {}
  }

  method BuildGraph(edges: seq<Edge>) returns (graph: map<AssetId, set<AssetId>>)
    ensures Represents(graph, edges)
  {
    graph := map[];
    for i := 0 to |edges|
      invariant Represents(graph, edges[..i])
    {
      var edge := edges[i];
      ghost var before := graph;
      graph := graph[edge.source := Neighbors(graph, edge.source) + {edge.target}];
      graph := graph[edge.target := Neighbors(graph, edge.target) + {edge.source}];
      forall x: AssetId, y: AssetId
        ensures y in Neighbors(graph, x) <==> Adjacent(edges[..i + 1], x, y)
      {
        AdjacentNext(edges, i, x, y);
        assert y in Neighbors(before, x) <==> Adjacent(edges[..i], x, y);
      }
    }
    assert edges[..|edges|] == edges;
  }

  lemma AdjacentNext(edges: seq<Edge>, i: nat, x: AssetId, y: AssetId)
    requires i < |edges|
    ensures Adjacent(edges[..i + 1], x, y)
      <==> Adjacent(edges[..i], x, y) || edges[i] == Edge(x, y) || edges[i] == Edge(y, x)
  {
    assert edges[..i + 1][i] == edges[i];
    if Adjacent(edges[..i], x, y) {
      var k :| 0 <= k < i && (edges[..i][k] == Edge(x, y) || edges[..i][k] == Edge(y, x));
      assert edges[..i + 1][k] == edges[k];
    }
    if Adjacent(edges[..i + 1], x, y) {
      var k :| 0 <= k < i + 1 && (edges[..i + 1][k] == Edge(x, y) || edges[..i + 1][k] == Edge(y, x));
      assert k < i ==> edges[..i][k] == edges[k];
    }
  }

  /** Every visited asset off the frontier has all its neighbours visited. */
  ghost predicate Expanded(graph: map<AssetId, set<AssetId>>, component: set<AssetId>, frontier: seq<AssetId>) {
    forall x :: x in component && x !in frontier ==> Neighbors(graph, x) <= component
  }

  /** The same while the neighbours of one more asset are being visited. */
  ghost predicate ExpandedBut(graph: map<AssetId, set<AssetId>>, component: set<AssetId>, frontier: seq<AssetId>,
                              current: AssetId)
  {
    forall x :: x in component && x !in frontier && x != current ==> Neighbors(graph, x) <= component
  }

  predicate AllVisited(frontier: seq<AssetId>, component: set<AssetId>) {
    forall i :: 0 <= i < |frontier| ==> frontier[i] in component
  }

  /** A neighbour not seen before is visited and put on the frontier. */
  lemma VisitOne(graph: map<AssetId, set<AssetId>>, component: set<AssetId>, frontier: seq<AssetId>, current: AssetId,
                 neighbor: AssetId)
    requires ExpandedBut(graph, component, frontier, current) && AllVisited(frontier, component)
      && neighbor !in component
    ensures ExpandedBut(graph, component + {neighbor}, frontier + [neighbor], current)
    ensures AllVisited(frontier + [neighbor], component + {neighbor})
    ensures |component + {neighbor}| == |component| + 1
  {
  }

  lemma ExpandedStarts(graph: map<AssetId, set<AssetId>>, component: set<AssetId>, waiting: seq<AssetId>,
                       current: AssetId)
    requires Expanded(graph, component, waiting + [current])
    ensures ExpandedBut(graph, component, waiting, current)
  {
    forall x | x in component && x !in waiting && x != current
      ensures x !in waiting + [current]
    {
    }
  }

  lemma ExpandedEnds(graph: map<AssetId, set<AssetId>>, component: set<AssetId>, frontier: seq<AssetId>,
                     current: AssetId)
    requires ExpandedBut(graph, component, frontier, current) && Neighbors(graph, current) <= component
    ensures Expanded(graph, component, frontier)
  {
  }

  lemma SubsetCardinality(a: set<AssetId>, b: set<AssetId>)
    requires a <= b
    ensures |a| <= |b|
    ensures |a| == |b| ==> a == b
  {
    assert b == a + (b - a);
    assert |b| == |a| + |b - a|;
  }

  predicate PathInside(edges: seq<Edge>, path: seq<AssetId>, x: AssetId, y: AssetId, ids: set<AssetId>) {
    PathBetween(edges, path, x, y) && forall i :: 0 <= i < |path| ==> path[i] in ids
  }

  /** Every asset of the set is reached from the start through the set. */
  ghost predicate Inside(edges: seq<Edge>, asset: AssetId, component: set<AssetId>) {
    forall x :: x in component ==> exists path :: PathInside(edges, path, asset, x, component)
  }

  /** Fewer than 200 assets had been visited, and then all neighbours of one of them were. */
  ghost predicate StoppedAfter(edges: seq<Edge>, asset: AssetId, core: set<AssetId>, last: AssetId,
                               component: set<AssetId>)
  {
    && last in core && asset in core && |core| < MAX_COMPONENT && Inside(edges, asset, core)
    && core <= component
    && forall x :: x in component && x !in core ==> Adjacent(edges, last, x)
  }

  /** What an early stop returns. */
  ghost predicate Truncated(edges: seq<Edge>, asset: AssetId, component: set<AssetId>) {
    |component| >= MAX_COMPONENT && exists core, last :: StoppedAfter(edges, asset, core, last, component)
  }

  /** The whole component when it has fewer than 200 assets, otherwise the result of an early stop. */
  ghost predicate SearchResult(edges: seq<Edge>, asset: AssetId, component: set<AssetId>) {
    && asset in component && component <= Component(edges, asset)
    && ((component == Component(edges, asset) && |component| < MAX_COMPONENT) || Truncated(edges, asset, component))
  }

  lemma InsideGrows(edges: seq<Edge>, asset: AssetId, core: set<AssetId>, last: AssetId, component: set<AssetId>)
    requires StoppedAfter(edges, asset, core, last, component)
    ensures Inside(edges, asset, component)
    ensures |component| >= MAX_COMPONENT ==> Truncated(edges, asset, component)
  {
    forall x | x in component
      ensures exists path :: PathInside(edges, path, asset, x, component)
    {
      if x in core {
        var path :| PathInside(edges, path, asset, x, core);
        assert PathInside(edges, path, asset, x, component);
      } else {
        var path :| PathInside(edges, path, asset, last, core);
        assert PathInside(edges, path + [x], asset, x, component);
      }
    }
  }

  lemma SearchAdvances(graph: map<AssetId, set<AssetId>>, edges: seq<Edge>, asset: AssetId, core: set<AssetId>,
                       current: AssetId, component: set<AssetId>)
    requires Represents(graph, edges) && Inside(edges, asset, core) && current in core && asset in core
    requires |core| < MAX_COMPONENT && component == core + Neighbors(graph, current)
    ensures Inside(edges, asset, component)
    ensures |component| >= MAX_COMPONENT ==> Truncated(edges, asset, component)
  {
    assert StoppedAfter(edges, asset, core, current, component);
    InsideGrows(edges, asset, core, current, component);
  }

  lemma ExpandedIsWhole(graph: map<AssetId, set<AssetId>>, edges: seq<Edge>, asset: AssetId, component: set<AssetId>)
    requires Represents(graph, edges) && asset in component && Expanded(graph, component, [])
    ensures Component(edges, asset) <= component
  {
    ClosedContainsComponent(edges, asset, component);
  }

  /**
    The search terminates inside the component; it stops early only with at
    least 200 assets, so it returns the whole component up to and including
    that size.
   */
  method SearchComponent(graph: map<AssetId, set<AssetId>>, ghost edges: seq<Edge>, asset: AssetId)
    returns (component: set<AssetId>)
    requires Represents(graph, edges)
    ensures SearchResult(edges, asset, component)
    ensures |Component(edges, asset)| <= 200 ==> component == Component(edges, asset)
  {
    ghost var all := Component(edges, asset);
    component := {asset};
    assert PathInside(edges, [asset], asset, asset, component);
    var frontier := [asset];
    while frontier != [] && |component| < MAX_COMPONENT
      invariant asset in component && component <= all
      invariant Inside(edges, asset, component)
      invariant |component| >= MAX_COMPONENT ==> Truncated(edges, asset, component)
      invariant AllVisited(frontier, component)
      invariant Expanded(graph, component, frontier)
      decreases |all| - |component|, |frontier|
    {
      var current, waiting := frontier[|frontier| - 1], frontier[..|frontier| - 1];
      assert frontier == waiting + [current];
      ghost var core := component;
      component, frontier := VisitNeighbors(graph, edges, asset, current, component, waiting);
      SearchAdvances(graph, edges, asset, core, current, component);
    }
    SubsetCardinality(component, all);
    if frontier == [] {
      ExpandedIsWhole(graph, edges, asset, component);
    }
  }

  /** The inner loop: every neighbour not seen before is visited and put on the frontier. */
  method VisitNeighbors(graph: map<AssetId, set<AssetId>>, ghost edges: seq<Edge>, ghost asset: AssetId,
                        current: AssetId, visited: set<AssetId>, waiting: seq<AssetId>)
    returns (component: set<AssetId>, frontier: seq<AssetId>)
    requires Represents(graph, edges)
    requires current in visited && visited <= Component(edges, asset)
    requires AllVisited(waiting, visited)
    requires Expanded(graph, visited, waiting + [current])
    ensures component == visited + Neighbors(graph, current) && component <= Component(edges, asset)
    ensures AllVisited(frontier, component)
    ensures Expanded(graph, component, frontier)
    ensures |component| <= |Component(edges, asset)|
    ensures |component| > |visited| || (component == visited && frontier == waiting)
  {
    NeighborsReached(graph, edges, asset, current);
    ExpandedStarts(graph, visited, waiting, current);
    component, frontier := visited, waiting;
    var todo := Neighbors(graph, current);
    while todo != {}
      invariant todo <= Neighbors(graph, current)
      invariant visited <= component <= visited + Neighbors(graph, current)
      invariant Neighbors(graph, current) - todo <= component
      invariant AllVisited(frontier, component)
      invariant ExpandedBut(graph, component, frontier, current)
      invariant |component| - |visited| == |frontier| - |waiting| >= 0
      invariant |frontier| == |waiting| ==> component == visited && frontier == waiting
      decreases todo
    {
      var neighbor :| neighbor in todo;
      todo := todo - {neighbor};
      if neighbor !in component {
        VisitOne(graph, component, frontier, current, neighbor);
        component := component + {neighbor};
        frontier := frontier + [neighbor];
      }
    }
    ExpandedEnds(graph, component, frontier, current);
    SubsetCardinality(component, Component(edges, asset));
  }

  lemma NeighborsReached(graph: map<AssetId, set<AssetId>>, edges: seq<Edge>, asset: AssetId, current: AssetId)
    requires Represents(graph, edges) && current in Component(edges, asset)
    ensures Neighbors(graph, current) <= Component(edges, asset)
  {
    forall neighbor | neighbor in Neighbors(graph, current)
      ensures neighbor in Component(edges, asset)
    {
      ConnectedStep(edges, asset, current, neighbor);
      ComponentComplete(edges, asset, neighbor);
    }
  }

  predicate Least(ids: set<AssetId>, m: AssetId) {
    m in ids && forall x :: x in ids ==> m <= x
  }

  /** The smallest id of a set, as `min` over the ids' texts. */
  function Min(ids: set<AssetId>): (m: AssetId)
    requires ids != {}
    ensures Least(ids, m)
  {
    LeastExists(ids);
    var m :| m in ids && Least(ids, m);
    m
  }

  lemma {:induction false} LeastExists(ids: set<AssetId>)
    requires ids != {}
    ensures exists m :: m in ids && Least(ids, m)
  {
    var x :| x in ids;
    var rest := ids - {x};
    var least := x;
    if rest != {} {
      LeastExists(rest);
      var m :| m in rest && Least(rest, m);
      least := if x < m then x else m;
    }
    forall y | y in ids
      ensures least <= y
    {
      assert y == x || y in rest;
    }
    assert Least(ids, least);
  }

  function KeyOf(component: set<AssetId>, asset: AssetId, service: string): Key
    requires component != {}
  {
    if |component| == 1 then AssetKey(asset, service) else DependencyKey(Min(component), service)
  }

  method DependencyCorrelationKey(live: set<AssetId>, relations: seq<Relation>, asset: AssetId, service: string,
                                  now: Time)
    returns (key: Key)
    ensures asset !in live ==> key == AssetKey(asset, service)
    ensures var component := Component(ActiveEdges(live, relations, now), asset);
      (|component| <= 200 ==> key == KeyOf(component, asset, service))
  {
    var edges := ActiveEdges(live, relations, now);
    if asset !in live {
      RetiredStandsAlone(live, relations, asset, now);
      return AssetKey(asset, service);
    }
    var graph := BuildGraph(edges);
    var component := SearchComponent(graph, edges, asset);
    if |component| == 1 {
      return AssetKey(asset, service);
    }
    return DependencyKey(Min(component), service);
  }

  lemma AdjacentIsLive(live: set<AssetId>, relations: seq<Relation>, x: AssetId, y: AssetId, now: Time)
    ensures Adjacent(ActiveEdges(live, relations, now), x, y) ==> x in live && y in live
  {
    var edges := ActiveEdges(live, relations, now);
    if Adjacent(edges, x, y) {
      var i :| 0 <= i < |edges| && (edges[i] == Edge(x, y) || edges[i] == Edge(y, x));
      assert edges[i].source in live && edges[i].target in live;
    }
  }

  /** Row `i` joins the two assets, in either direction, is one of the five dependencies, and has not expired. */
  predicate RowJoins(relations: seq<Relation>, i: nat, x: AssetId, y: AssetId, now: Time)
    requires i < |relations|
  {
    var r := relations[i];
    && ((r.source == x && r.target == y) || (r.source == y && r.target == x))
    && (|| r.relationType == "DEPENDS_ON" || r.relationType == "RUNS_ON" || r.relationType == "CONNECTS_TO"
        || r.relationType == "STORES_DATA_IN" || r.relationType == "EXPOSES")
    && (r.expiresAt.Some? ==> now < r.expiresAt.value)
  }

  predicate SomeRowJoins(relations: seq<Relation>, x: AssetId, y: AssetId, now: Time) {
    exists k :: 0 <= k < |relations| && RowJoins(relations, k, x, y, now)
  }

  lemma AdjacentAppended(edges: seq<Edge>, more: seq<Edge>, x: AssetId, y: AssetId)
    ensures Adjacent(edges + more, x, y) <==> Adjacent(edges, x, y) || Adjacent(more, x, y)
  {
    if Adjacent(edges, x, y) {
      var i :| 0 <= i < |edges| && (edges[i] == Edge(x, y) || edges[i] == Edge(y, x));
      assert (edges + more)[i] == edges[i];
    }
    if Adjacent(more, x, y) {
      var i :| 0 <= i < |more| && (more[i] == Edge(x, y) || more[i] == Edge(y, x));
      assert (edges + more)[|edges| + i] == more[i];
    }
  }

  /**
    Two assets are adjacent exactly when both are live and some dependency that
    has not expired joins them, in either direction.
   */
  lemma {:induction false} AdjacentIff(live: set<AssetId>, relations: seq<Relation>, x: AssetId, y: AssetId, now: Time)
    ensures Adjacent(ActiveEdges(live, relations, now), x, y)
      <==> x in live && y in live && SomeRowJoins(relations, x, y, now)
  {
    if relations != [] {
      var n := |relations| - 1;
      var last := if Active(live, relations[n], now) then [Edge(relations[n].source, relations[n].target)] else [];
      AdjacentIff(live, relations[..n], x, y, now);
      AdjacentAppended(ActiveEdges(live, relations[..n], now), last, x, y);
      assert forall i :: 0 <= i < n ==> (RowJoins(relations[..n], i, x, y, now) <==> RowJoins(relations, i, x, y, now));
      assert Adjacent(last, x, y) <==> x in live && y in live && RowJoins(relations, n, x, y, now) by {
        if last != [] {
          assert last[0] == Edge(relations[n].source, relations[n].target);
        }
      }
    }
  }

  /** Row `i` joins nothing: it has expired, is of another type, or has an end that is not live. */
  predicate Inert(live: set<AssetId>, relations: seq<Relation>, i: nat, now: Time)
    requires i < |relations|
  {
    var r := relations[i];
    || (r.expiresAt.Some? && r.expiresAt.value <= now)
    || r.relationType !in ["DEPENDS_ON", "RUNS_ON", "CONNECTS_TO", "STORES_DATA_IN", "EXPOSES"]
    || r.source !in live || r.target !in live
  }

  /** The joining row is among the others, unless it is row `i`. */
  lemma JoinedWithout(relations: seq<Relation>, i: nat, x: AssetId, y: AssetId, now: Time)
    requires i < |relations| && SomeRowJoins(relations, x, y, now) && !RowJoins(relations, i, x, y, now)
    ensures SomeRowJoins(relations[..i] + relations[i + 1..], x, y, now)
  {
    var rest := relations[..i] + relations[i + 1..];
    var k :| 0 <= k < |relations| && RowJoins(relations, k, x, y, now);
    var place := if k < i then k else k - 1;
    assert rest[place] == relations[k];
    assert RowJoins(rest, place, x, y, now);
  }

  lemma JoinedWith(relations: seq<Relation>, i: nat, x: AssetId, y: AssetId, now: Time)
    requires i < |relations| && SomeRowJoins(relations[..i] + relations[i + 1..], x, y, now)
    ensures SomeRowJoins(relations, x, y, now)
  {
    var rest := relations[..i] + relations[i + 1..];
    var k :| 0 <= k < |rest| && RowJoins(rest, k, x, y, now);
    var place := if k < i then k else k + 1;
    assert rest[k] == relations[place];
    assert RowJoins(relations, place, x, y, now);
  }

  lemma InertKeepsAdjacent(live: set<AssetId>, relations: seq<Relation>, i: nat, now: Time, x: AssetId, y: AssetId)
    requires i < |relations| && Inert(live, relations, i, now)
    ensures Adjacent(ActiveEdges(live, relations, now), x, y)
      <==> Adjacent(ActiveEdges(live, relations[..i] + relations[i + 1..], now), x, y)
  {
    AdjacentIff(live, relations, x, y, now);
    AdjacentIff(live, relations[..i] + relations[i + 1..], x, y, now);
    if x in live && y in live {
      if SomeRowJoins(relations, x, y, now) {
        JoinedWithout(relations, i, x, y, now);
      }
      if SomeRowJoins(relations[..i] + relations[i + 1..], x, y, now) {
        JoinedWith(relations, i, x, y, now);
      }
    }
  }

  lemma AdjacencyDecidesComponent(a: seq<Edge>, b: seq<Edge>, asset: AssetId)
    requires forall x: AssetId, y: AssetId :: Adjacent(a, x, y) <==> Adjacent(b, x, y)
    ensures Component(a, asset) == Component(b, asset)
  {
    forall y: AssetId
      ensures Connected(a, asset, y) <==> Connected(b, asset, y)
    {
      if Connected(a, asset, y) {
        var path :| PathBetween(a, path, asset, y);
        assert PathBetween(b, path, asset, y);
      }
      if Connected(b, asset, y) {
        var path :| PathBetween(b, path, asset, y);
        assert PathBetween(a, path, asset, y);
      }
    }
    forall y: AssetId
      ensures y in Component(a, asset) <==> y in Component(b, asset)
    {
      if y in Component(a, asset) {
        ComponentComplete(b, asset, y);
      }
      if y in Component(b, asset) {
        ComponentComplete(a, asset, y);
      }
    }
  }

  /**
    An expired dependency, a relation of another type and one with an end that is
    not live can be removed without changing any asset's component or key; so the
    calls before and after it agree for every component of at most 200 assets.
   */
  lemma InertRowsChangeNoKey(live: set<AssetId>, relations: seq<Relation>, i: nat, now: Time, asset: AssetId,
                             service: string)
    requires i < |relations| && Inert(live, relations, i, now)
    ensures var component := Component(ActiveEdges(live, relations, now), asset);
      var without := Component(ActiveEdges(live, relations[..i] + relations[i + 1..], now), asset);
      component == without && KeyOf(component, asset, service) == KeyOf(without, asset, service)
  {
    var rest := relations[..i] + relations[i + 1..];
    forall x: AssetId, y: AssetId
      ensures Adjacent(ActiveEdges(live, relations, now), x, y) <==> Adjacent(ActiveEdges(live, rest, now), x, y)
    {
      InertKeepsAdjacent(live, relations, i, now, x, y);
    }
    AdjacencyDecidesComponent(ActiveEdges(live, relations, now), ActiveEdges(live, rest, now), asset);
  }

  /** A retired or unknown asset has no active dependency. */
  lemma RetiredStandsAlone(live: set<AssetId>, relations: seq<Relation>, asset: AssetId, now: Time)
    requires asset !in live
    ensures Component(ActiveEdges(live, relations, now), asset) == {asset}
  {
    var edges := ActiveEdges(live, relations, now);
    ConnectedSelf(edges, asset);
    forall z: AssetId
      ensures Adjacent(edges, asset, z) ==> asset in live
    {
      AdjacentIsLive(live, relations, asset, z, now);
    }
    ClosedContainsComponent(edges, asset, {asset});
  }

  /**
    For one graph and service, two assets whose components have at most 200
    assets get the same key if and only if they are in the same component.
   */
  lemma KeyNamesComponent(edges: seq<Edge>, a: AssetId, b: AssetId, service: string)
    ensures KeyOf(Component(edges, a), a, service) == KeyOf(Component(edges, b), b, service) <==> Connected(edges, a, b)
  {
    var keyA, keyB := KeyOf(Component(edges, a), a, service), KeyOf(Component(edges, b), b, service);
    ConnectedSelf(edges, a);
    ConnectedSelf(edges, b);
    if Connected(edges, a, b) {
      SameComponent(edges, a, b);
      ComponentComplete(edges, a, b);
      if |Component(edges, a)| == 1 {
        SubsetCardinality({a}, Component(edges, a));
        assert Component(edges, a) == {a};
      }
    } else if keyA == keyB {
      if keyA.DependencyKey? {
        var root := keyA.root;
        assert root in Component(edges, a) && root in Component(edges, b);
        ConnectedSymmetric(edges, b, root);
        ConnectedTransitive(edges, a, root, b);
      }
    }
  }

  /** A dependency in force between two live assets gives them one key, and no asset's own when they are two. */
  lemma JoinedAssetsShareTheirKey(live: set<AssetId>, relations: seq<Relation>, i: nat, now: Time, service: string)
    requires i < |relations| && !Inert(live, relations, i, now) && relations[i].source != relations[i].target
    ensures var edges, a, b := ActiveEdges(live, relations, now), relations[i].source, relations[i].target;
      && KeyOf(Component(edges, a), a, service) == KeyOf(Component(edges, b), b, service)
      && KeyOf(Component(edges, a), a, service).DependencyKey?
  {
    var edges, a, b := ActiveEdges(live, relations, now), relations[i].source, relations[i].target;
    assert RowJoins(relations, i, a, b, now);
    AdjacentIff(live, relations, a, b, now);
    ConnectedSelf(edges, a);
    ConnectedStep(edges, a, a, b);
    ComponentComplete(edges, a, b);
    SubsetCardinality({a, b}, Component(edges, a));
    KeyNamesComponent(edges, a, b, service);
  }

  // ------------------------------------------------------ the bound is exact

  /** A chain of `n + 1` assets, each depending on the next. */
  function Line(n: nat): seq<Edge> {
    seq(n, i requires 0 <= i < n => Edge(i, i + 1))
  }

  lemma LineAdjacent(n: nat, x: AssetId, y: AssetId)
    ensures Adjacent(Line(n), x, y) <==> (y == x + 1 && x < n) || (x == y + 1 && y < n)
  {
    if y == x + 1 && x < n {
      assert Line(n)[x] == Edge(x, y);
    }
    if x == y + 1 && y < n {
      assert Line(n)[y] == Edge(y, x);
    }
  }

  /** A walk along the line from its far end to `x` passes every asset in between. */
  lemma {:induction false} WalkPasses(n: nat, path: seq<AssetId>, y: AssetId)
    requires IsPath(Line(n), path) && path[|path| - 1] <= y <= path[0]
    ensures y in path
  {
    if path[0] != y {
      assert |path| > 1;
      LineAdjacent(n, path[0], path[1]);
      assert Adjacent(Line(n), path[0], path[1]);
      WalkPasses(n, path[1..], y);
    }
  }

  lemma {:induction false} RangeCardinality(low: nat, high: nat, ids: set<AssetId>)
    requires low <= high && forall x :: low <= x < high ==> x in ids
    ensures |ids| >= high - low
    decreases high - low
  {
    if low < high {
      RangeCardinality(low + 1, high, ids - {low});
    }
  }

  /** From the far end of the line the search stops before it sees asset 0. */
  lemma FarEndMissesFirst(n: nat, component: set<AssetId>)
    requires n >= MAX_COMPONENT && Truncated(Line(n), n, component)
    ensures 0 !in component
  {
    var core, last :| StoppedAfter(Line(n), n, core, last, component);
    forall low | low in core && low <= 1
      ensures false
    {
      var path :| PathInside(Line(n), path, n, low, core);
      forall y | 1 <= y < n + 1
        ensures y in core
      {
        WalkPasses(n, path, y);
      }
      RangeCardinality(1, n + 1, core);
    }
    LineAdjacent(n, last, 0);
  }

  /**
    The bound cannot be raised: in every chain of more than 200 assets the two
    ends are in one component, yet every result of the search from one end gives
    a key that differs from every result from the other.
   */
  lemma KeysDifferBeyondBound(n: nat, near: set<AssetId>, far: set<AssetId>, service: string)
    requires n >= 200
    requires SearchResult(Line(n), 0, near) && SearchResult(Line(n), n, far)
    ensures KeyOf(near, 0, service) != KeyOf(far, n, service)
    ensures Connected(Line(n), 0, n)
  {
    LineConnected(n, n);
    SameComponent(Line(n), 0, n);
    forall k | 0 <= k < n + 1
      ensures k in Component(Line(n), 0)
    {
      LineConnected(n, k);
      ComponentComplete(Line(n), 0, k);
    }
    RangeCardinality(0, n + 1, Component(Line(n), 0));
    FarEndMissesFirst(n, far);
  }

  lemma {:induction false} LineConnected(n: nat, k: nat)
    requires k <= n
    ensures Connected(Line(n), 0, k)
  {
    if k == 0 {
      ConnectedSelf(Line(n), 0);
    } else {
      LineConnected(n, k - 1);
      LineAdjacent(n, k - 1, k);
      ConnectedStep(Line(n), 0, k - 1, k);
    }
  }
}
