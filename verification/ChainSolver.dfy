/**
 The order in which the sub-areas of a group are cleaned: the confirmed connectors must form one directed path
 through all of them.
 */
module ChainSolver {
  import opened Wrappers
  import opened CleaningModel

  datatype Error =
    | ConnectorGraphInvalid | SubAreaConnectorMissing | SubAreaIdInvalid | ConnectorNotConfirmed | ConnectorSubAreaMissing

  datatype Result = Ok(order: seq<nat>) | Err(error: Error)

  // ---------------------------------------------------------------------------------------------
  // What a chain is
  // ---------------------------------------------------------------------------------------------

  predicate UniqueIds(areas: seq<SubArea>) {
    && (forall i :: 0 <= i < |areas| ==> areas[i].id != "")
    && (forall i, j :: 0 <= i < j < |areas| ==> areas[i].id != areas[j].id)
  }

  predicate IsIndexOf(areas: seq<SubArea>, id: Id, i: nat) { i < |areas| && areas[i].id == id }

  /** The index of the first area with this id, or the number of areas. */
  function IndexOf(areas: seq<SubArea>, id: Id): (r: nat)
    ensures r <= |areas|
    ensures r < |areas| ==> areas[r].id == id
    ensures forall i :: 0 <= i < r ==> areas[i].id != id
  {
    if areas == [] then 0 else if areas[0].id == id then 0 else 1 + IndexOf(areas[1..], id)
  }

  type Edge = (nat, nat)

  function EdgeOf(areas: seq<SubArea>, c: Connector): Edge { (IndexOf(areas, c.from), IndexOf(areas, c.to)) }

  function EdgesOf(group: Group): (r: seq<Edge>)
    ensures |r| == |group.connectors|
  {
    seq(|group.connectors|, i requires 0 <= i < |group.connectors| => EdgeOf(group.subAreas, group.connectors[i]))
  }

  predicate Permutation(order: seq<nat>, n: nat) {
    && |order| == n
    && (forall k :: 0 <= k < n ==> order[k] < n)
    && (forall j, k :: 0 <= j < k < n ==> order[j] != order[k])
  }

  /** The steps from each area of the order to the next. */
  function Steps(order: seq<nat>): (r: seq<Edge>)
    ensures |r| == if order == [] then 0 else |order| - 1
  {
    seq(if order == [] then 0 else |order| - 1, k requires 0 <= k < |order| - 1 => (order[k], order[k + 1]))
  }

  /** `order` visits all `n` areas once, and the edges are exactly its steps. */
  ghost predicate IsPath(n: nat, edges: seq<Edge>, order: seq<nat>) {
    Permutation(order, n) && multiset(edges) == multiset(Steps(order))
  }

  predicate UsableConnectors(group: Group) {
    forall i :: 0 <= i < |group.connectors| ==>
      && group.connectors[i].confirmed
      && IndexOf(group.subAreas, group.connectors[i].from) < |group.subAreas|
      && IndexOf(group.subAreas, group.connectors[i].to) < |group.subAreas|
  }

  ghost predicate IsChain(group: Group, order: seq<nat>) {
    && group.subAreas != [] && UniqueIds(group.subAreas) && UsableConnectors(group)
    && IsPath(|group.subAreas|, EdgesOf(group), order)
  }

  ghost predicate HasChain(group: Group) { exists order :: IsChain(group, order) }

  // ---------------------------------------------------------------------------------------------
  // Permutations and paths
  // ---------------------------------------------------------------------------------------------

  function Elements(s: seq<nat>): set<nat> { set x | x in s }

  lemma {:induction false} DistinctElements(s: seq<nat>)
    requires forall j, k :: 0 <= j < k < |s| ==> s[j] != s[k]
    ensures |Elements(s)| == |s|
  {
    if s != [] {
      var last := |s| - 1;
      DistinctElements(s[..last]);
      assert Elements(s) == Elements(s[..last]) + {s[last]};
      assert s[last] !in s[..last];
    }
  }

  lemma {:induction false} UpTo(n: nat) returns (all: set<nat>)
    ensures |all| == n && forall x :: x in all <==> 0 <= x < n
  {
    all := {};
    if n > 0 {
      var before := UpTo(n - 1);
      all := before + {n - 1};
    }
  }

  lemma SubsetOfSameSize(a: set<nat>, b: set<nat>)
    requires a <= b && |a| == |b|
    ensures a == b
  {
    assert b == a + (b - a) && |b| == |a| + |b - a|;
  }

  lemma {:induction false} SubsetIsSmaller(a: set<nat>, b: set<nat>)
    requires a <= b
    ensures |a| <= |b|
    decreases |a|
  {
    if a != {} {
      var x :| x in a;
      SubsetIsSmaller(a - {x}, b - {x});
    }
  }

  /** A permutation misses no index. */
  lemma PermutationCovers(order: seq<nat>, n: nat, x: nat) returns (k: nat)
    requires Permutation(order, n) && x < n
    ensures k < n && order[k] == x
  {
    DistinctElements(order);
    var all := UpTo(n);
    assert Elements(order) <= all;
    SubsetOfSameSize(Elements(order), all);
    assert x in Elements(order);
    k :| 0 <= k < n && order[k] == x;
  }

  lemma StepAt(order: seq<nat>, e: Edge) returns (k: nat)
    requires e in Steps(order)
    ensures k + 1 < |order| && e == (order[k], order[k + 1])
  {
    var i :| 0 <= i < |Steps(order)| && Steps(order)[i] == e;
    k := i;
  }

  lemma EdgeIsStep(n: nat, edges: seq<Edge>, order: seq<nat>, i: nat) returns (k: nat)
    requires IsPath(n, edges, order) && i < |edges|
    ensures k + 1 < n && edges[i] == (order[k], order[k + 1])
  {
    assert edges[i] in multiset(edges);
    assert edges[i] in multiset(Steps(order));
    k := StepAt(order, edges[i]);
  }

  lemma StepIsEdge(n: nat, edges: seq<Edge>, order: seq<nat>, k: nat) returns (i: nat)
    requires IsPath(n, edges, order) && k + 1 < n
    ensures i < |edges| && edges[i] == (order[k], order[k + 1])
  {
    var e := Steps(order)[k];
    assert e in multiset(Steps(order));
    assert e in multiset(edges);
    i :| 0 <= i < |edges| && edges[i] == e;
  }

  lemma EdgeCount(n: nat, edges: seq<Edge>, order: seq<nat>)
    requires IsPath(n, edges, order) && n > 0
    ensures |edges| == n - 1
  {
    assert |multiset(edges)| == |multiset(Steps(order))|;
  }

  /** No edge leads from an area to itself. */
  predicate NoLoops(n: nat, edges: seq<Edge>) {
    forall i :: 0 <= i < |edges| ==> edges[i].0 < n && edges[i].1 < n && edges[i].0 != edges[i].1
  }

  predicate NoBranches(edges: seq<Edge>) {
    forall i, j :: 0 <= i < j < |edges| ==> edges[i].0 != edges[j].0 && edges[i].1 != edges[j].1
  }

  lemma {:induction false} OnceInMultiset(edges: seq<Edge>, e: Edge)
    requires forall i, j :: 0 <= i < j < |edges| ==> edges[i] != edges[j]
    ensures multiset(edges)[e] <= 1
  {
    if edges != [] {
      var last := |edges| - 1;
      assert edges == edges[..last] + [edges[last]];
      OnceInMultiset(edges[..last], e);
      assert edges[last] !in edges[..last];
    }
  }

  lemma StepsAreDistinct(order: seq<nat>, e: Edge)
    requires forall j, k :: 0 <= j < k < |order| ==> order[j] != order[k]
    ensures multiset(Steps(order))[e] <= 1
  {
    OnceInMultiset(Steps(order), e);
  }

  lemma PathHasNoLoops(n: nat, edges: seq<Edge>, order: seq<nat>)
    requires IsPath(n, edges, order)
    ensures NoLoops(n, edges)
  {
    forall i | 0 <= i < |edges| ensures edges[i].0 < n && edges[i].1 < n && edges[i].0 != edges[i].1 {
      var k := EdgeIsStep(n, edges, order, i);
    }
  }

  lemma PathHasNoBranches(n: nat, edges: seq<Edge>, order: seq<nat>)
    requires IsPath(n, edges, order)
    ensures NoBranches(edges)
  {
    forall i, j | 0 <= i < j < |edges| ensures edges[i].0 != edges[j].0 && edges[i].1 != edges[j].1 {
      var a := EdgeIsStep(n, edges, order, i);
      var b := EdgeIsStep(n, edges, order, j);
      StepsAreDistinct(order, edges[i]);
      EqualEdgesCountTwice(edges, i, j);
    }
  }

  lemma EqualEdgesCountTwice(edges: seq<Edge>, i: nat, j: nat)
    requires i < j < |edges|
    ensures edges[i] == edges[j] ==> multiset(edges)[edges[i]] >= 2
  {
    assert edges == edges[..j] + [edges[j]] + edges[j + 1..];
    assert edges[..j][i] == edges[i];
  }

  /** `x` is a root: no edge leads to it. */
  predicate IsRoot(edges: seq<Edge>, x: nat) { forall i :: 0 <= i < |edges| ==> edges[i].1 != x }

  lemma OnlyFirstIsRoot(n: nat, edges: seq<Edge>, order: seq<nat>, x: nat)
    requires IsPath(n, edges, order) && x < n
    ensures IsRoot(edges, x) <==> x == order[0]
  {
    var k := PermutationCovers(order, n, x);
    if k > 0 {
      var i := StepIsEdge(n, edges, order, k - 1);
    } else {
      forall i | 0 <= i < |edges| ensures edges[i].1 != x {
        var j := EdgeIsStep(n, edges, order, i);
      }
    }
  }

  lemma {:induction false} PathsAgree(n: nat, edges: seq<Edge>, a: seq<nat>, b: seq<nat>, k: nat)
    requires IsPath(n, edges, a) && IsPath(n, edges, b) && k < n
    ensures a[..k + 1] == b[..k + 1]
  {
    if k == 0 {
      OnlyFirstIsRoot(n, edges, a, a[0]);
      OnlyFirstIsRoot(n, edges, b, a[0]);
    } else {
      PathsAgree(n, edges, a, b, k - 1);
      assert a[..k][k - 1] == b[..k][k - 1];
      var i := StepIsEdge(n, edges, a, k - 1);
      var j := StepIsEdge(n, edges, b, k - 1);
      PathHasNoBranches(n, edges, a);
      assert i == j;
      assert a[..k + 1] == a[..k] + [a[k]] && b[..k + 1] == b[..k] + [b[k]];
    }
  }

  /** A group has at most one chain. */
  lemma ChainIsUnique(group: Group, a: seq<nat>, b: seq<nat>)
    requires IsChain(group, a) && IsChain(group, b)
    ensures a == b
  {
    var n := |group.subAreas|;
    PathsAgree(n, EdgesOf(group), a, b, n - 1);
    assert a[..n] == a && b[..n] == b;
  }

  // ---------------------------------------------------------------------------------------------
  // The solver
  // ---------------------------------------------------------------------------------------------

  lemma IndexIsUnique(areas: seq<SubArea>, i: nat)
    requires UniqueIds(areas) && i < |areas|
    ensures IndexOf(areas, areas[i].id) == i
  {
  }

  /** None when an id is empty or used twice. */
  method IndexAreas(areas: seq<SubArea>) returns (indexes: Option<map<Id, nat>>)
    ensures indexes.Some? <==> UniqueIds(areas)
    ensures indexes.Some? ==> forall id :: id in indexes.value <==> IndexOf(areas, id) < |areas|
    ensures indexes.Some? ==> forall id :: id in indexes.value ==> indexes.value[id] == IndexOf(areas, id)
  {
    var found: map<Id, nat> := map[];
    var index := 0;
    while index < |areas|
      invariant index <= |areas| && UniqueIds(areas[..index])
      invariant forall id :: id in found ==> found[id] < index && areas[found[id]].id == id
      invariant forall i :: 0 <= i < index ==> areas[i].id in found
    {
      if areas[index].id == "" || areas[index].id in found {
        return None;
      }
      found := found[areas[index].id := index];
      index := index + 1;
    }
    assert areas[..index] == areas;
    forall id | id in found ensures IndexOf(areas, id) == found[id] {
      IndexIsUnique(areas, found[id]);
    }
    return Some(found);
  }

  /** `outgoing` and `incoming` hold the edges: the successor of each area (or `n`), and how many lead to it. */
  ghost predicate GraphOf(n: nat, edges: seq<Edge>, outgoing: seq<nat>, incoming: seq<nat>) {
    && |outgoing| == n && |incoming| == n
    && (forall i :: 0 <= i < |edges| ==> edges[i].0 < n && edges[i].1 < n)
    && (forall i :: 0 <= i < |edges| ==> outgoing[edges[i].0] == edges[i].1)
    && (forall x :: 0 <= x < n && outgoing[x] != n ==> (x, outgoing[x]) in edges)
    && (forall x :: 0 <= x < n ==> (incoming[x] == 0 <==> IsRoot(edges, x)))
  }

  ghost predicate GoodEdges(group: Group, upTo: nat)
    requires upTo <= |group.connectors|
  {
    && UsableConnectors(group.(connectors := group.connectors[..upTo]))
    && NoLoops(|group.subAreas|, EdgesOf(group)[..upTo]) && NoBranches(EdgesOf(group)[..upTo])
  }

  lemma OneMoreEdge(n: nat, edges: seq<Edge>, e: Edge, outgoing: seq<nat>, incoming: seq<nat>)
    requires GraphOf(n, edges, outgoing, incoming) && NoLoops(n, edges) && NoBranches(edges)
    requires e.0 < n && e.1 < n && e.0 != e.1 && outgoing[e.0] == n && incoming[e.1] == 0
    ensures NoLoops(n, edges + [e]) && NoBranches(edges + [e])
    ensures GraphOf(n, edges + [e], outgoing[e.0 := e.1], incoming[e.1 := incoming[e.1] + 1])
  {
    var longer, out', in' := edges + [e], outgoing[e.0 := e.1], incoming[e.1 := incoming[e.1] + 1];
    assert longer[|edges|] == e;
    assert forall i :: 0 <= i < |edges| ==> longer[i] == edges[i];
    forall x | 0 <= x < n ensures in'[x] == 0 <==> IsRoot(longer, x) {
      if IsRoot(edges, x) && x != e.1 {
        assert IsRoot(longer, x);
      } else if !IsRoot(edges, x) {
        var i :| 0 <= i < |edges| && edges[i].1 == x;
        assert longer[i].1 == x;
      }
    }
    forall x | 0 <= x < n && out'[x] != n ensures (x, out'[x]) in longer {
      if x != e.0 {
        assert (x, outgoing[x]) in edges;
      }
    }
  }

  lemma BadEdge(group: Group, i: nat)
    requires i < |group.connectors| && !GoodEdges(group, i + 1)
    ensures !HasChain(group)
  {
    var n, edges := |group.subAreas|, EdgesOf(group);
    if order :| IsChain(group, order) {
      PathHasNoLoops(n, edges, order);
      PathHasNoBranches(n, edges, order);
      assert forall k :: 0 <= k <= i ==> edges[..i + 1][k] == edges[k];
      assert GoodEdges(group, i + 1);
    }
  }

  lemma Branching(n: nat, edges: seq<Edge>, e: Edge, outgoing: seq<nat>, incoming: seq<nat>)
    requires GraphOf(n, edges, outgoing, incoming) && e.0 < n && e.1 < n
    requires outgoing[e.0] != n || incoming[e.1] != 0
    ensures !NoBranches(edges + [e])
  {
    var longer := edges + [e];
    if outgoing[e.0] != n {
      var i :| 0 <= i < |edges| && edges[i] == (e.0, outgoing[e.0]);
      assert longer[i].0 == longer[|edges|].0;
    } else {
      var i :| 0 <= i < |edges| && edges[i].1 == e.1;
      assert longer[i].1 == longer[|edges|].1;
    }
  }

  /** None for the error exactly when the connectors can be the steps of a path, as far as each pair of them shows. */
  method BuildGraph(group: Group, indexes: map<Id, nat>) returns (error: Option<Error>, outgoing: seq<nat>, incoming: seq<nat>)
    requires forall id :: id in indexes <==> IndexOf(group.subAreas, id) < |group.subAreas|
    requires forall id :: id in indexes ==> indexes[id] == IndexOf(group.subAreas, id)
    ensures error.Some? ==>
              && (error.value.ConnectorNotConfirmed? || error.value.ConnectorSubAreaMissing?
                  || error.value.ConnectorGraphInvalid?)
              && !HasChain(group)
    ensures error.None? ==>
              && GoodEdges(group, |group.connectors|)
              && GraphOf(|group.subAreas|, EdgesOf(group), outgoing, incoming)
  {
    var n := |group.subAreas|;
    ghost var edges := EdgesOf(group);
    error := None;
    outgoing, incoming := seq(n, _ => n), seq(n, _ => 0);
    var i := 0;
    while i < |group.connectors|
      invariant i <= |group.connectors| && GoodEdges(group, i) && GraphOf(n, edges[..i], outgoing, incoming)
    {
      var connector := group.connectors[i];
      assert edges[..i + 1] == edges[..i] + [edges[i]];
      assert group.connectors[..i + 1] == group.connectors[..i] + [connector];
      if !connector.confirmed {
        assert !UsableConnectors(group.(connectors := group.connectors[..i + 1])) by {
          assert group.connectors[..i + 1][i] == connector;
        }
        BadEdge(group, i);
        return Some(ConnectorNotConfirmed), [], [];
      }
      if connector.from !in indexes || connector.to !in indexes || indexes[connector.from] == indexes[connector.to] {
        assert edges[..i + 1][i] == EdgeOf(group.subAreas, connector);
        BadEdge(group, i);
        return Some(ConnectorSubAreaMissing), [], [];
      }
      var from, to := indexes[connector.from], indexes[connector.to];
      assert edges[i] == (from, to);
      if outgoing[from] != n || incoming[to] != 0 {
        Branching(n, edges[..i], edges[i], outgoing, incoming);
        BadEdge(group, i);
        return Some(ConnectorGraphInvalid), [], [];
      }
      OneMoreEdge(n, edges[..i], edges[i], outgoing, incoming);
      outgoing := outgoing[from := to];
      incoming := incoming[to := incoming[to] + 1];
      i := i + 1;
    }
    assert edges[..i] == edges;
  }

  /** The only area that no edge leads to. */
  method FindRoot(incoming: seq<nat>) returns (root: Option<nat>)
    ensures root.Some? ==>
              && root.value < |incoming| && incoming[root.value] == 0
              && forall x :: 0 <= x < |incoming| && incoming[x] == 0 ==> x == root.value
    ensures root.None? ==>
              forall r :: 0 <= r < |incoming| && incoming[r] == 0 ==> SecondRoot(incoming, r)
  {
    root := None;
    var index := 0;
    while index < |incoming|
      invariant index <= |incoming|
      invariant root.Some? ==> root.value < index && incoming[root.value] == 0
      invariant forall x :: 0 <= x < index && incoming[x] == 0 ==> root == Some(x)
    {
      if incoming[index] == 0 {
        if root.Some? {
          forall r | 0 <= r < |incoming| && incoming[r] == 0 ensures SecondRoot(incoming, r) {
            var other := if r == index then root.value else index;
            assert incoming[other] == 0 && other != r;
          }
          return None;
        }
        root := Some(index);
      }
      index := index + 1;
    }
  }

  lemma ChainStartsAtRoot(group: Group, order: seq<nat>, outgoing: seq<nat>, incoming: seq<nat>)
    requires IsChain(group, order) && GraphOf(|group.subAreas|, EdgesOf(group), outgoing, incoming)
    ensures forall x :: 0 <= x < |group.subAreas| ==> (incoming[x] == 0 <==> x == order[0])
  {
    forall x | 0 <= x < |group.subAreas| ensures incoming[x] == 0 <==> x == order[0] {
      OnlyFirstIsRoot(|group.subAreas|, EdgesOf(group), order, x);
    }
  }

  lemma ChainFollowsEdges(group: Group, order: seq<nat>, outgoing: seq<nat>, incoming: seq<nat>, k: nat)
    requires IsChain(group, order) && GraphOf(|group.subAreas|, EdgesOf(group), outgoing, incoming)
    requires k < |order|
    ensures outgoing[order[k]] == if k + 1 < |order| then order[k + 1] else |group.subAreas|
  {
    var n, edges := |group.subAreas|, EdgesOf(group);
    if k + 1 < n {
      var i := StepIsEdge(n, edges, order, k);
    } else if outgoing[order[k]] != n {
      var i :| 0 <= i < |edges| && edges[i] == (order[k], outgoing[order[k]]);
      var j := EdgeIsStep(n, edges, order, i);
    }
  }

  /** `ordered` is where `order` begins, and `current` is what comes next in it. */
  predicate Along(n: nat, order: seq<nat>, ordered: seq<nat>, current: nat) {
    ordered <= order && current == if |ordered| < |order| then order[|ordered|] else n
  }

  /** What a walk along the edges has seen so far, should there be a chain at all. */
  ghost predicate WalkedAlong(group: Group, ordered: seq<nat>, current: nat) {
    forall order :: IsChain(group, order) ==> Along(|group.subAreas|, order, ordered, current)
  }

  lemma NextAlong(group: Group, order: seq<nat>, outgoing: seq<nat>, incoming: seq<nat>, ordered: seq<nat>, current: nat)
    requires IsChain(group, order) && GraphOf(|group.subAreas|, EdgesOf(group), outgoing, incoming)
    requires Along(|group.subAreas|, order, ordered, current) && current < |group.subAreas|
    ensures Along(|group.subAreas|, order, ordered + [current], outgoing[current])
  {
    ChainFollowsEdges(group, order, outgoing, incoming, |ordered|);
  }

  lemma NextOnTheWalk(group: Group, outgoing: seq<nat>, incoming: seq<nat>, ordered: seq<nat>, current: nat)
    requires GraphOf(|group.subAreas|, EdgesOf(group), outgoing, incoming)
    requires WalkedAlong(group, ordered, current) && current < |group.subAreas|
    ensures WalkedAlong(group, ordered + [current], outgoing[current])
  {
    forall order | IsChain(group, order)
      ensures Along(|group.subAreas|, order, ordered + [current], outgoing[current])
    {
      NextAlong(group, order, outgoing, incoming, ordered, current);
    }
  }

  /** Walking into an area again shows that there is no chain. */
  lemma CycleIsNoChain(group: Group, ordered: seq<nat>, current: nat)
    requires WalkedAlong(group, ordered, current) && current < |group.subAreas| && current in ordered
    ensures !HasChain(group)
  {
    forall order | IsChain(group, order) ensures false {
      AlongIsFresh(|group.subAreas|, order, ordered, current);
    }
  }

  lemma AlongIsFresh(n: nat, order: seq<nat>, ordered: seq<nat>, current: nat)
    requires Permutation(order, n) && Along(n, order, ordered, current) && current < n
    ensures current !in ordered
  {
  }

  /** Neither does a walk that ends before it has seen every area. */
  lemma ShortWalkIsNoChain(group: Group, ordered: seq<nat>)
    requires WalkedAlong(group, ordered, |group.subAreas|) && |ordered| != |group.subAreas|
    ensures !HasChain(group)
  {
  }

  lemma ChainCount(group: Group, order: seq<nat>)
    requires IsChain(group, order)
    ensures |group.connectors| == |group.subAreas| - 1
  {
    EdgeCount(|group.subAreas|, EdgesOf(group), order);
  }

  lemma WrongCountIsNoChain(group: Group)
    requires |group.connectors| != |group.subAreas| - 1
    ensures !HasChain(group)
  {
    forall order ensures !IsChain(group, order) {
      if IsChain(group, order) {
        ChainCount(group, order);
      }
    }
  }

  /** A chain starts at the only root there is. */
  lemma RootStartsEveryChain(group: Group, outgoing: seq<nat>, incoming: seq<nat>, root: nat)
    requires GraphOf(|group.subAreas|, EdgesOf(group), outgoing, incoming)
    requires root < |incoming| && incoming[root] == 0
    ensures WalkedAlong(group, [], root)
  {
    forall order | IsChain(group, order) ensures Along(|group.subAreas|, order, [], root) {
      ChainStartsAtRoot(group, order, outgoing, incoming);
    }
  }

  ghost predicate SecondRoot(incoming: seq<nat>, r: nat) {
    exists x :: 0 <= x < |incoming| && x != r && incoming[x] == 0
  }

  lemma ChainHasOneRoot(group: Group, order: seq<nat>, outgoing: seq<nat>, incoming: seq<nat>)
    requires IsChain(group, order) && GraphOf(|group.subAreas|, EdgesOf(group), outgoing, incoming)
    ensures order[0] < |incoming| && incoming[order[0]] == 0 && !SecondRoot(incoming, order[0])
  {
    ChainStartsAtRoot(group, order, outgoing, incoming);
  }

  lemma NoSingleRootIsNoChain(group: Group, outgoing: seq<nat>, incoming: seq<nat>)
    requires GraphOf(|group.subAreas|, EdgesOf(group), outgoing, incoming)
    requires forall r :: 0 <= r < |incoming| && incoming[r] == 0 ==> SecondRoot(incoming, r)
    ensures !HasChain(group)
  {
    forall order | IsChain(group, order) ensures false {
      ChainHasOneRoot(group, order, outgoing, incoming);
    }
  }

  /** A complete walk over a graph without branches is a chain. */
  lemma WalkIsChain(group: Group, outgoing: seq<nat>, incoming: seq<nat>, order: seq<nat>)
    requires group.subAreas != [] && UniqueIds(group.subAreas) && GoodEdges(group, |group.connectors|)
    requires |group.connectors| == |group.subAreas| - 1
    requires GraphOf(|group.subAreas|, EdgesOf(group), outgoing, incoming)
    requires Permutation(order, |group.subAreas|)
    requires forall k :: 0 <= k < |order| - 1 ==> outgoing[order[k]] == order[k + 1]
    requires outgoing[order[|order| - 1]] == |group.subAreas|
    ensures IsChain(group, order)
  {
    var n, edges := |group.subAreas|, EdgesOf(group);
    assert group.connectors[..|group.connectors|] == group.connectors && edges[..|edges|] == edges;
    forall i | 0 <= i < |edges| ensures edges[i] in Steps(order) {
      var k := PermutationCovers(order, n, edges[i].0);
      assert Steps(order)[k] == edges[i];
    }
    SameStepsSameMultiset(n, edges, order);
  }

  lemma SameStepsSameMultiset(n: nat, edges: seq<Edge>, order: seq<nat>)
    requires n > 0 && Permutation(order, n) && |edges| == n - 1 && NoBranches(edges)
    requires forall i :: 0 <= i < |edges| ==> edges[i] in Steps(order)
    ensures multiset(edges) == multiset(Steps(order))
  {
    var steps := Steps(order);
    forall e ensures multiset(edges)[e] <= multiset(steps)[e] {
      if e in multiset(edges) {
        EdgesAreDistinct(edges, e);
        var i :| 0 <= i < |edges| && edges[i] == e;
        assert e in multiset(steps);
      }
    }
    assert multiset(edges) <= multiset(steps);
    assert |multiset(steps) - multiset(edges)| == 0;
  }

  lemma EdgesAreDistinct(edges: seq<Edge>, e: Edge)
    requires NoBranches(edges)
    ensures multiset(edges)[e] <= 1
  {
    OnceInMultiset(edges, e);
  }

  method Walk(group: Group, outgoing: seq<nat>, ghost incoming: seq<nat>, root: nat) returns (r: Result)
    requires group.subAreas != [] && UniqueIds(group.subAreas) && GoodEdges(group, |group.connectors|)
    requires |group.connectors| == |group.subAreas| - 1
    requires GraphOf(|group.subAreas|, EdgesOf(group), outgoing, incoming)
    requires root < |group.subAreas| && WalkedAlong(group, [], root)
    ensures if r.Ok? then IsChain(group, r.order) else r.error.ConnectorGraphInvalid? && !HasChain(group)
  {
    var n := |group.subAreas|;
    var visited := seq(n, _ => false);
    var ordered: seq<nat> := [];
    var current := root;
    while current != n
      invariant |visited| == n && current <= n && |ordered| <= n
      invariant forall x :: 0 <= x < n ==> (visited[x] <==> x in ordered)
      invariant forall k :: 0 <= k < |ordered| ==> ordered[k] < n
      invariant forall j, k :: 0 <= j < k < |ordered| ==> ordered[j] != ordered[k]
      invariant forall k :: 0 <= k < |ordered| - 1 ==> outgoing[ordered[k]] == ordered[k + 1]
      invariant current == if ordered == [] then root else outgoing[ordered[|ordered| - 1]]
      invariant WalkedAlong(group, ordered, current)
      decreases n - |ordered|
    {
      if visited[current] {
        CycleIsNoChain(group, ordered, current);
        return Err(ConnectorGraphInvalid);
      }
      NextOnTheWalk(group, outgoing, incoming, ordered, current);
      FewerThan(ordered, current, n);
      EdgeTargets(n, EdgesOf(group), outgoing, incoming, current);
      visited := visited[current := true];
      ordered := ordered + [current];
      current := outgoing[current];
    }
    if |ordered| != n {
      ShortWalkIsNoChain(group, ordered);
      return Err(ConnectorGraphInvalid);
    }
    WalkIsChain(group, outgoing, incoming, ordered);
    return Ok(ordered);
  }

  lemma EdgeTargets(n: nat, edges: seq<Edge>, outgoing: seq<nat>, incoming: seq<nat>, x: nat)
    requires GraphOf(n, edges, outgoing, incoming) && x < n
    ensures outgoing[x] <= n
  {
    if outgoing[x] != n {
      var i :| 0 <= i < |edges| && edges[i] == (x, outgoing[x]);
    }
  }

  /** Distinct indices below `n` that miss one are fewer than `n`. */
  lemma FewerThan(s: seq<nat>, x: nat, n: nat)
    requires forall k :: 0 <= k < |s| ==> s[k] < n
    requires forall j, k :: 0 <= j < k < |s| ==> s[j] != s[k]
    requires x < n && x !in s
    ensures |s| < n
  {
    DistinctElements(s);
    var all := UpTo(n);
    assert Elements(s) <= all - {x};
    SubsetIsSmaller(Elements(s), all - {x});
  }

  /** What the solver answers about a group. */
  ghost predicate Answers(group: Group, r: Result) {
    var n := |group.subAreas|;
    && (n == 1 ==> r == if group.connectors == [] then Ok([0]) else Err(ConnectorGraphInvalid))
    && (n != 1 ==>
          && (r.Ok? <==> HasChain(group))
          && (r.Ok? ==> IsChain(group, r.order))
          && (r == Err(SubAreaConnectorMissing) <==> n == 0 || |group.connectors| != n - 1)
          && (r == Err(SubAreaIdInvalid) ==> !UniqueIds(group.subAreas)))
    && (r.Ok? ==> Permutation(r.order, n))
  }

  /**
   With two areas or more the solver succeeds exactly when the confirmed connectors form one directed path through
   all of the uniquely named areas, and then returns that path; a single area needs no connector (and its name is
   not looked at), and a group without areas is refused.
   */
  method ResolveSubAreaChain(group: Group) returns (r: Result)
    ensures Answers(group, r)
  {
    var count := |group.subAreas|;
    if count == 1 {
      return if group.connectors == [] then Ok([0]) else Err(ConnectorGraphInvalid);
    }
    if count == 0 || |group.connectors| != count - 1 {
      WrongCountIsNoChain(group);
      return Err(SubAreaConnectorMissing);
    }
    var indexes := IndexAreas(group.subAreas);
    if indexes.None? {
      return Err(SubAreaIdInvalid);
    }
    r := FollowConnectors(group, indexes.value);
  }

  method FollowConnectors(group: Group, indexes: map<Id, nat>) returns (r: Result)
    requires UniqueIds(group.subAreas) && group.subAreas != [] && |group.connectors| == |group.subAreas| - 1
    requires forall id :: id in indexes <==> IndexOf(group.subAreas, id) < |group.subAreas|
    requires forall id :: id in indexes ==> indexes[id] == IndexOf(group.subAreas, id)
    ensures if r.Ok? then IsChain(group, r.order)
            else !HasChain(group) && !r.error.SubAreaConnectorMissing? && !r.error.SubAreaIdInvalid?
  {
    var error, outgoing, incoming := BuildGraph(group, indexes);
    if error.Some? {
      return Err(error.value);
    }
    var root := FindRoot(incoming);
    if root.None? {
      NoSingleRootIsNoChain(group, outgoing, incoming);
      return Err(ConnectorGraphInvalid);
    }
    RootStartsEveryChain(group, outgoing, incoming, root.value);
    r := Walk(group, outgoing, incoming, root.value);
  }
}
