/** The "AI brain" page: 90 nodes spread over a sphere, each joined to its nearest
    neighbours, turning slowly; hovering over a node shows its reading and clicking on it
    shows a simulated deeper analysis. Node positions, their projection to the screen and the
    distances between nodes are trigonometry and are inputs here: the graph builder takes,
    for every node, all nodes ranked by their distance from it, and the hover and click
    handlers take the projected screen positions. Random draws are samples in [0, 1). */
module Brain {
  import opened Util

  const NODE_COUNT: nat := 90
  /** The nodes highlighted from the start, and the number of random enlargements. */
  const HIGHLIGHT_COUNT: nat := 8
  /** Neighbours considered per node. */
  const K: nat := 3
  /** Radians of rotation per millisecond. */
  const ROTATION_SPEED: real := 0.00009
  /** A node farther from the pointer than 50 pixels (squared: 2500) is not picked. */
  const PICK_LIMIT: real := 2500.0

  const IMBALANCE_NOTE: string := "Potential imbalance detected in aft stack"
  const STABLE_NOTE: string := "Stable reading"
  const DEFAULT_TITLE: string := "Cargo AI Brain"
  const DEFAULT_TEXT: string :=
    "Optimizing vessel equilibrium to reduce the risk of container displacement"
  const DEEP_PREFIX: string := "Deep Reasoning \U{2014} "
  const DEEP_BODY: string :=
    "Simulated chain-of-thought:\n\U{2022} Rebalancing suggestion: move 2 containers from port aft to starboard mid.\n\U{2022} Confidence: "

  /** A node of the graph and its metadata (its position on the sphere is not modelled). */
  datatype Node = Node(id: nat, size: real, highlight: bool, importance: nat, note: string)

  /** An edge [from, to] between two nodes, by index. */
  datatype Edge = Edge(from: nat, to: nat)

  datatype Point = Point(x: real, y: real)

  /** The pointer as the handlers record it. */
  datatype Mouse = Mouse(x: real, y: real, isOver: bool)

  // ---------------------------------------------------------------------------------------
  // Node metadata

  /** Every seventh node reports an imbalance; the others a stable reading. */
  function Note(id: nat): (note: string)
    ensures note == IMBALANCE_NOTE <==> id % 7 == 0
    ensures note == STABLE_NOTE <==> id % 7 != 0
  {
    assert IMBALANCE_NOTE[0] != STABLE_NOTE[0];
    if id % 7 == 0 then IMBALANCE_NOTE else STABLE_NOTE
  }

  /** The label `Node #<id>`. */
  function Label(id: nat): string {
    "Node #" + NatToString(id)
  }

  /** Different nodes have different labels, so a label shown as the title names one node. */
  lemma LabelInjective(a: nat, b: nat)
    requires a != b
    ensures Label(a) != Label(b)
  {
    NatToStringInjective(a, b);
    PrefixCancel("Node #", NatToString(a), NatToString(b));
  }

  /** Math.floor(randRange(10, 95)): an importance between 10 and 94 per cent. */
  function Importance(u: Sample): (p: nat)
    ensures 10 <= p <= 94
  {
    (10.0 + u * 85.0).Floor
  }

  /** randRange(lo, lo + w) = lo + u * w for a constant width. */
  function Size(lo: real, u: Sample): (s: real)
    ensures lo <= s < lo + 4.0
  {
    lo + u * 4.0
  }

  /** The i-th node as the first loop of buildNodes creates it. */
  function InitialNode(i: nat, uSize: Sample, uImportance: Sample): Node {
    Node(i, Size(2.0, uSize), i < HIGHLIGHT_COUNT, Importance(uImportance), Note(i))
  }

  function InitialNodes(sizes: seq<Sample>, importances: seq<Sample>): (nodes: seq<Node>)
    requires |sizes| == |importances|
    ensures |nodes| == |sizes|
    ensures forall i :: 0 <= i < |nodes| ==> nodes[i] == InitialNode(i, sizes[i], importances[i])
  {
    seq(|sizes|, i requires 0 <= i < |sizes| => InitialNode(i, sizes[i], importances[i]))
  }

  /** The nodes after the first t random enlargements of the second loop of buildNodes:
      enlargement t picks a node with `picks[t]`, gives it a size drawn from [6, 10) with
      `bigSizes[t]` and highlights it. */
  function Boosts(initial: seq<Node>, picks: seq<Sample>, bigSizes: seq<Sample>, t: nat): (nodes: seq<Node>)
    requires |initial| > 0 && t <= |picks| && t <= |bigSizes|
    ensures |nodes| == |initial|
    decreases t
  {
    if t == 0 then initial
    else
      var prev := Boosts(initial, picks, bigSizes, t - 1);
      var idx := Pick(picks[t - 1], |prev|);
      prev[idx := prev[idx].(size := Size(6.0, bigSizes[t - 1]), highlight := true)]
  }

  /** Whether one of the first t enlargements picked node k. */
  predicate PickedBy(picks: seq<Sample>, t: nat, n: nat, k: nat)
    requires t <= |picks| && n > 0
  {
    exists s :: 0 <= s < t && Pick(picks[s], n) == k
  }

  /** What buildNodes guarantees of each node: node k has id k and the note of k, it keeps
      the importance it was created with, it is highlighted exactly when k < 8 or an
      enlargement picked it, and its size is from [6, 10) if it was picked and from [2, 6)
      otherwise. */
  lemma {:induction false} BoostsFacts(sizes: seq<Sample>, importances: seq<Sample>,
                                        picks: seq<Sample>, bigSizes: seq<Sample>, t: nat, k: nat)
    requires |sizes| == |importances| > 0 && t <= |picks| && t <= |bigSizes| && k < |sizes|
    ensures var node := Boosts(InitialNodes(sizes, importances), picks, bigSizes, t)[k];
      && node.id == k && node.note == Note(k) && node.importance == Importance(importances[k])
      && (node.highlight <==> k < HIGHLIGHT_COUNT || PickedBy(picks, t, |sizes|, k))
      && (PickedBy(picks, t, |sizes|, k) ==> 6.0 <= node.size < 10.0)
      && (!PickedBy(picks, t, |sizes|, k) ==> 2.0 <= node.size < 6.0)
    decreases t
  {
    var initial := InitialNodes(sizes, importances);
    if t > 0 {
      BoostsFacts(sizes, importances, picks, bigSizes, t - 1, k);
      var idx := Pick(picks[t - 1], |sizes|);
      if idx == k {
        assert PickedBy(picks, t, |sizes|, k);
      } else {
        assert PickedBy(picks, t, |sizes|, k) <==> PickedBy(picks, t - 1, |sizes|, k) by {
          if PickedBy(picks, t, |sizes|, k) {
            var s :| 0 <= s < t && Pick(picks[s], |sizes|) == k;
            assert s < t - 1;
          }
        }
      }
    }
  }

  /** The number of highlighted nodes in a list. */
  function CountHighlighted(nodes: seq<Node>): (c: nat)
    ensures c <= |nodes|
  {
    if nodes == [] then 0
    else CountHighlighted(nodes[..|nodes| - 1]) + (if nodes[|nodes| - 1].highlight then 1 else 0)
  }

  /** Replacing one node changes the count by the difference in that node's flag. */
  lemma {:induction false} CountHighlightedUpdate(nodes: seq<Node>, idx: nat, node: Node)
    requires idx < |nodes|
    ensures CountHighlighted(nodes[idx := node]) + (if nodes[idx].highlight then 1 else 0)
         == CountHighlighted(nodes) + (if node.highlight then 1 else 0)
    decreases |nodes|
  {
    var last := |nodes| - 1;
    var updated := nodes[idx := node];
    if idx == last {
      assert updated[..last] == nodes[..last];
    } else {
      CountHighlightedUpdate(nodes[..last], idx, node);
      assert updated[..last] == nodes[..last][idx := node];
    }
  }

  /** Among the nodes as first created, exactly the first eight are highlighted. */
  lemma {:induction false} InitialHighlights(nodes: seq<Node>, m: nat)
    requires m <= |nodes|
    requires forall i :: 0 <= i < |nodes| ==> (nodes[i].highlight <==> i < HIGHLIGHT_COUNT)
    ensures CountHighlighted(nodes[..m]) == if m < HIGHLIGHT_COUNT then m else HIGHLIGHT_COUNT
    decreases m
  {
    if m > 0 {
      InitialHighlights(nodes, m - 1);
      assert nodes[..m][..m - 1] == nodes[..m - 1];
    }
  }

  /** The enlargements only add highlights, one at most each: after t of them between 8 and
      8 + t nodes are highlighted. */
  lemma {:induction false} BoostsHighlightCount(sizes: seq<Sample>, importances: seq<Sample>,
                                                picks: seq<Sample>, bigSizes: seq<Sample>, t: nat)
    requires |sizes| == |importances| >= HIGHLIGHT_COUNT && t <= |picks| && t <= |bigSizes|
    ensures var c := CountHighlighted(Boosts(InitialNodes(sizes, importances), picks, bigSizes, t));
      HIGHLIGHT_COUNT <= c <= HIGHLIGHT_COUNT + t
    decreases t
  {
    var initial := InitialNodes(sizes, importances);
    if t == 0 {
      InitialHighlights(initial, |initial|);
      assert initial[..|initial|] == initial;
    } else {
      BoostsHighlightCount(sizes, importances, picks, bigSizes, t - 1);
      var prev := Boosts(initial, picks, bigSizes, t - 1);
      var idx := Pick(picks[t - 1], |prev|);
      CountHighlightedUpdate(prev, idx, prev[idx].(size := Size(6.0, bigSizes[t - 1]), highlight := true));
    }
  }

  // ---------------------------------------------------------------------------------------
  // Nearest-neighbour edges

  /** Positions 1 to K of a ranking, as `slice(1, 1 + K)` takes them (position 0 is the node
      itself, at distance 0). */
  function Neighbours(ranking: seq<nat>): (ns: seq<nat>)
    ensures |ns| <= K
    ensures |ns| == if |ranking| == 0 then 0 else if |ranking| - 1 < K then |ranking| - 1 else K
    ensures forall p :: 0 <= p < |ns| ==> p + 1 < |ranking| && ns[p] == ranking[p + 1]
  {
    var lo := if |ranking| < 1 then |ranking| else 1;
    var hi := if |ranking| < 1 + K then |ranking| else 1 + K;
    ranking[lo..hi]
  }

  /** The edges node i adds for its neighbours js: [i, j] for each j > i, in order. Each
      goes forward from i to one of js. */
  function Forward(i: nat, js: seq<nat>): (es: seq<Edge>)
    ensures |es| <= |js|
    ensures forall k :: 0 <= k < |es| ==> es[k].from == i && i < es[k].to && es[k].to in js
  {
    if js == [] then []
    else
      var j := js[|js| - 1];
      Forward(i, js[..|js| - 1]) + (if i < j then [Edge(i, j)] else [])
  }

  /** Conversely, every neighbour j > i gets its edge [i, j]. */
  lemma {:induction false} ForwardComplete(i: nat, js: seq<nat>, j: nat)
    requires j in js && i < j
    ensures Edge(i, j) in Forward(i, js)
    decreases |js|
  {
    var m := |js| - 1;
    if js[m] != j {
      assert j in js[..m] by {
        var p :| 0 <= p < |js| && js[p] == j;
        assert p < m && js[..m][p] == j;
      }
      ForwardComplete(i, js[..m], j);
    }
  }

  /** The edges the nearest-neighbour pass emits for the first n nodes, node by node. Each
      edge [i, j] has i < j, so there are no self-loops and no pair in both orientations,
      and j is among the K nearest others of i. */
  function KnnEdges(rankings: seq<seq<nat>>, n: nat): (es: seq<Edge>)
    requires n <= |rankings|
    ensures forall k :: 0 <= k < |es| ==>
      es[k].from < n && es[k].from < es[k].to && es[k].to in Neighbours(rankings[es[k].from])
  {
    if n == 0 then []
    else KnnEdges(rankings, n - 1) + Forward(n - 1, Neighbours(rankings[n - 1]))
  }

  /** Every forward neighbour gets its edge: for i < n and each j among the K nearest
      others of i with i < j, the pass emits [i, j]. */
  lemma {:induction false} KnnEdgesComplete(rankings: seq<seq<nat>>, n: nat, i: nat, j: nat)
    requires i < n <= |rankings|
    requires j in Neighbours(rankings[i]) && i < j
    ensures Edge(i, j) in KnnEdges(rankings, n)
    decreases n
  {
    var earlier := KnnEdges(rankings, n - 1);
    var block := Forward(n - 1, Neighbours(rankings[n - 1]));
    assert KnnEdges(rankings, n) == earlier + block;
    if i < n - 1 {
      KnnEdgesComplete(rankings, n - 1, i, j);
      assert Edge(i, j) in earlier;
    } else {
      ForwardComplete(i, Neighbours(rankings[i]), j);
    }
  }

  /** At most K edges per node: at most 270 edges over the 90 nodes. */
  lemma {:induction false} KnnEdgesCount(rankings: seq<seq<nat>>, n: nat)
    requires n <= |rankings|
    ensures |KnnEdges(rankings, n)| <= K * n
    decreases n
  {
    if n > 0 {
      KnnEdgesCount(rankings, n - 1);
    }
  }

  /** The edges that start at node i, in order. */
  function EdgesFrom(es: seq<Edge>, i: nat): (out: seq<Edge>)
    ensures |out| <= |es|
    ensures forall k :: 0 <= k < |out| ==> out[k].from == i
  {
    if es == [] then []
    else EdgesFrom(es[..|es| - 1], i) + (if es[|es| - 1].from == i then [es[|es| - 1]] else [])
  }

  lemma {:induction false} EdgesFromConcat(a: seq<Edge>, b: seq<Edge>, i: nat)
    ensures EdgesFrom(a + b, i) == EdgesFrom(a, i) + EdgesFrom(b, i)
    decreases |b|
  {
    if b == [] {
      assert a + b == a;
    } else {
      var m := |b| - 1;
      assert (a + b)[..|a + b| - 1] == a + b[..m];
      assert (a + b)[|a + b| - 1] == b[m];
      EdgesFromConcat(a, b[..m], i);
    }
  }

  /** A list none of whose edges starts at i has no edges from i. */
  lemma {:induction false} EdgesFromNone(es: seq<Edge>, i: nat)
    requires forall k :: 0 <= k < |es| ==> es[k].from != i
    ensures EdgesFrom(es, i) == []
    decreases |es|
  {
    if es != [] {
      EdgesFromNone(es[..|es| - 1], i);
    }
  }

  /** A list whose edges all start at i is kept whole. */
  lemma {:induction false} EdgesFromAll(es: seq<Edge>, i: nat)
    requires forall k :: 0 <= k < |es| ==> es[k].from == i
    ensures EdgesFrom(es, i) == es
    decreases |es|
  {
    if es != [] {
      var m := |es| - 1;
      EdgesFromAll(es[..m], i);
      assert es[..m] + [es[m]] == es;
    }
  }

  /** Edges from one node all come from its own pass: node i contributes its forward
      neighbours among positions 1..K of its ranking and nothing else, so at most K edges. */
  lemma {:induction false} EdgesFromNode(rankings: seq<seq<nat>>, n: nat, i: nat)
    requires i < n <= |rankings|
    ensures EdgesFrom(KnnEdges(rankings, n), i) == Forward(i, Neighbours(rankings[i]))
    ensures |EdgesFrom(KnnEdges(rankings, n), i)| <= K
    decreases n
  {
    var earlier := KnnEdges(rankings, n - 1);
    var block := Forward(n - 1, Neighbours(rankings[n - 1]));
    EdgesFromConcat(earlier, block, i);
    if i == n - 1 {
      EdgesFromNone(earlier, i);
      EdgesFromAll(block, i);
    } else {
      EdgesFromNone(block, i);
      EdgesFromNode(rankings, n - 1, i);
    }
  }

  predicate Distinct<T(==)>(s: seq<T>) {
    forall p, q :: 0 <= p < q < |s| ==> s[p] != s[q]
  }

  lemma DistinctConcat<T>(a: seq<T>, b: seq<T>)
    requires Distinct(a) && Distinct(b)
    requires forall p, q :: 0 <= p < |a| && 0 <= q < |b| ==> a[p] != b[q]
    ensures Distinct(a + b)
  {
    forall p, q | 0 <= p < q < |a + b| ensures (a + b)[p] != (a + b)[q] {
      if p < |a| && |a| <= q {
        assert (a + b)[p] == a[p] && (a + b)[q] == b[q - |a|];
      }
    }
  }

  /** Distinct neighbours give distinct edges. */
  lemma {:induction false} ForwardDistinct(i: nat, js: seq<nat>)
    requires Distinct(js)
    ensures Distinct(Forward(i, js))
    decreases |js|
  {
    if js != [] {
      var m := |js| - 1;
      var j := js[m];
      var prefix := js[..m];
      ForwardDistinct(i, prefix);
      var earlier := Forward(i, prefix);
      if i < j {
        forall p | 0 <= p < |earlier| ensures earlier[p] != Edge(i, j) {
          var t :| 0 <= t < |prefix| && prefix[t] == earlier[p].to;
          assert js[t] == earlier[p].to;
        }
        DistinctConcat(earlier, [Edge(i, j)]);
      }
    }
  }

  /** When every node's ranking lists each node once, no edge is emitted twice. */
  lemma {:induction false} KnnEdgesDistinct(rankings: seq<seq<nat>>, n: nat)
    requires n <= |rankings|
    requires forall i :: 0 <= i < n ==> Distinct(rankings[i])
    ensures Distinct(KnnEdges(rankings, n))
    decreases n
  {
    if n > 0 {
      var ns := Neighbours(rankings[n - 1]);
      KnnEdgesDistinct(rankings, n - 1);
      assert Distinct(ns) by {
        var r := rankings[n - 1];
        forall p, q | 0 <= p < q < |ns| ensures ns[p] != ns[q] {
          assert ns[p] == r[p + 1] && ns[q] == r[q + 1];
        }
      }
      ForwardDistinct(n - 1, ns);
      DistinctConcat(KnnEdges(rankings, n - 1), Forward(n - 1, ns));
    }
  }

  /** `ranking` lists each of the n nodes once, in order of non-decreasing distance from
      node i, as sorting all nodes by distance does. */
  predicate IsRanking(ranking: seq<nat>, i: nat, n: nat, dist: (nat, nat) -> real) {
    && Distinct(ranking)
    && (forall m :: 0 <= m < n ==> m in ranking)
    && (forall p, q :: 0 <= p < q < |ranking| ==> dist(i, ranking[p]) <= dist(i, ranking[q]))
  }

  /** The first K + 1 places of a ranking (the node itself and its K nearest others). */
  function Closest(ranking: seq<nat>): seq<nat> {
    ranking[..if |ranking| < 1 + K then |ranking| else 1 + K]
  }

  /** The edges join nearest neighbours: for an edge [i, j] and any node m outside the K + 1
      first places of i's ranking, j is no farther from i than m. */
  lemma KnnEdgesNearest(rankings: seq<seq<nat>>, n: nat, dist: (nat, nat) -> real, k: nat, m: nat)
    requires n <= |rankings| && k < |KnnEdges(rankings, n)|
    requires IsRanking(rankings[KnnEdges(rankings, n)[k].from], KnnEdges(rankings, n)[k].from, n, dist)
    requires m < n && m !in Closest(rankings[KnnEdges(rankings, n)[k].from])
    ensures dist(KnnEdges(rankings, n)[k].from, KnnEdges(rankings, n)[k].to) <= dist(KnnEdges(rankings, n)[k].from, m)
  {
    var e := KnnEdges(rankings, n)[k];
    var r := rankings[e.from];
    var ns := Neighbours(r);
    var p :| 0 <= p < |ns| && ns[p] == e.to;
    assert m in r;
    var q :| 0 <= q < |r| && r[q] == m;
    assert dist(e.from, r[p + 1]) <= dist(e.from, r[q]);
  }

  // ---------------------------------------------------------------------------------------
  // Picking the node under the pointer

  function SquaredDistance(a: Point, b: Point): real {
    (a.x - b.x) * (a.x - b.x) + (a.y - b.y) * (a.y - b.y)
  }

  /** Position i holds the point nearest to `target`, and every earlier point is strictly
      farther (the first of equally near points wins). */
  predicate IsNearest(points: seq<Point>, target: Point, i: nat) {
    && i < |points|
    && (forall j :: 0 <= j < |points| ==> SquaredDistance(points[i], target) <= SquaredDistance(points[j], target))
    && (forall j :: 0 <= j < i ==> SquaredDistance(points[i], target) < SquaredDistance(points[j], target))
  }

  /** The nearest-node loops of draw and handleClick: starting from an infinite best, a point
      replaces the candidate only when strictly nearer. */
  method NearestPoint(points: seq<Point>, target: Point) returns (nearest: Option<nat>)
    ensures nearest.None? <==> points == []
    ensures nearest.Some? ==> IsNearest(points, target, nearest.value)
  {
    nearest := None;
    var best := 0.0;
    for k := 0 to |points|
      invariant nearest.None? <==> k == 0
      invariant nearest.Some? ==> IsNearest(points[..k], target, nearest.value)
      invariant nearest.Some? ==> best == SquaredDistance(points[nearest.value], target)
    {
      var d := SquaredDistance(points[k], target);
      if nearest.None? || d < best {
        best := d;
        nearest := Some(k);
      }
    }
    assert points[..|points|] == points;
  }

  /** The nearest point is unique, whatever loop finds it. */
  lemma NearestUnique(points: seq<Point>, target: Point, a: nat, b: nat)
    requires IsNearest(points, target, a) && IsNearest(points, target, b)
    ensures a == b
  {
    var da, db := SquaredDistance(points[a], target), SquaredDistance(points[b], target);
    assert da <= db && db <= da;
  }

  /** Whether the nearest point is close enough to be picked. */
  predicate Picks(points: seq<Point>, target: Point, i: nat) {
    IsNearest(points, target, i) && SquaredDistance(points[i], target) < PICK_LIMIT
  }

  // ---------------------------------------------------------------------------------------
  // Reasoning panel texts

  /** The panel text while hovering over a node: its note and its importance. */
  function HoverText(node: Node): string {
    node.note + " \U{2022} Importance " + NatToString(node.importance) + "%"
  }

  function DeepTitle(node: Node): string {
    DEEP_PREFIX + Label(node.id)
  }

  /** Math.floor(randRange(60, 96)): a confidence between 60 and 95 per cent. */
  function Confidence(u: Sample): (c: nat)
    ensures 60 <= c <= 95
  {
    (60.0 + u * 36.0).Floor
  }

  function DeepText(confidence: nat): string {
    DEEP_BODY + NatToString(confidence) + "%"
  }

  /** The three kinds of title never coincide: the default title, a node label shown on
      hover, and a deep-reasoning title shown after a click start differently, and titles of
      the same kind for different nodes differ. */
  lemma TitlesDistinguish(a: Node, b: Node)
    ensures DEFAULT_TITLE != Label(a.id) && DEFAULT_TITLE != DeepTitle(a)
    ensures Label(a.id) != DeepTitle(b)
    ensures a.id != b.id ==> Label(a.id) != Label(b.id) && DeepTitle(a) != DeepTitle(b)
  {
    assert Label(a.id)[0] == 'N';
    assert DeepTitle(a)[0] == 'D' && DeepTitle(b)[0] == 'D';
    if a.id != b.id {
      LabelInjective(a.id, b.id);
      PrefixCancel(DEEP_PREFIX, Label(a.id), Label(b.id));
    }
  }

  /** Rotation after a frame at `now`, given the previous frame time. */
  function Spin(rotY: real, lastTime: real, now: real): real {
    rotY + ROTATION_SPEED * (now - lastTime)
  }

  /** The rotation depends only on the elapsed time, not on how it was split into frames. */
  lemma SpinTelescopes(rotY: real, t0: real, t1: real, t2: real)
    ensures Spin(Spin(rotY, t0, t1), t1, t2) == Spin(rotY, t0, t2)
  {
  }

  // ---------------------------------------------------------------------------------------
  // The three passes of buildNodes

  /** The first pass: one node per index, pushed in id order. */
  method CreateNodes(sizes: seq<Sample>, importances: seq<Sample>) returns (nodes: seq<Node>)
    requires |sizes| == |importances|
    ensures nodes == InitialNodes(sizes, importances)
  {
    nodes := [];
    for i := 0 to |sizes|
      invariant |nodes| == i
      invariant forall k :: 0 <= k < i ==> nodes[k] == InitialNode(k, sizes[k], importances[k])
    {
      nodes := nodes + [Node(i, 2.0 + (sizes[i] as real) * 4.0, i < HIGHLIGHT_COUNT, Importance(importances[i]), Note(i))];
    }
  }

  /** The second pass: each enlargement picks a node, resizes it and highlights it. */
  method EnlargeNodes(initial: seq<Node>, picks: seq<Sample>, bigSizes: seq<Sample>) returns (nodes: seq<Node>)
    requires |initial| > 0 && |picks| == |bigSizes|
    ensures nodes == Boosts(initial, picks, bigSizes, |picks|)
  {
    nodes := initial;
    for t := 0 to |picks|
      invariant nodes == Boosts(initial, picks, bigSizes, t)
    {
      var idx := Pick(picks[t], |nodes|);
      nodes := nodes[idx := nodes[idx].(size := 6.0 + (bigSizes[t] as real) * 4.0, highlight := true)];
    }
  }

  /** The third pass: for each node, its neighbours at positions 1..K of its ranking, keeping
      only those with a larger index. */
  method ConnectNeighbours(n: nat, rankings: seq<seq<nat>>) returns (edges: seq<Edge>)
    requires n <= |rankings|
    ensures edges == KnnEdges(rankings, n)
  {
    edges := [];
    for i := 0 to n
      invariant edges == KnnEdges(rankings, i)
    {
      var ns := Neighbours(rankings[i]);
      for p := 0 to |ns|
        invariant edges == KnnEdges(rankings, i) + Forward(i, ns[..p])
      {
        var j := ns[p];
        assert ns[..p + 1][..p] == ns[..p];
        if i < j {
          edges := edges + [Edge(i, j)];
        }
      }
      assert ns[..|ns|] == ns;
    }
  }

  // ---------------------------------------------------------------------------------------
  // The page state

  /** A node as the draw loop sees it: a copy of the node with its projected position. */
  datatype Projected = Projected(node: Node, screen: Point)

  function Screens(projected: seq<Projected>): (points: seq<Point>)
    ensures |points| == |projected|
    ensures forall k :: 0 <= k < |points| ==> points[k] == projected[k].screen
  {
    seq(|projected|, k requires 0 <= k < |projected| => projected[k].screen)
  }

  /** The node copies of a frame, in draw order. */
  function DrawnNodes(projected: seq<Projected>): (drawn: seq<Node>)
    ensures |drawn| == |projected|
    ensures forall k :: 0 <= k < |drawn| ==> drawn[k] == projected[k].node
  {
    seq(|projected|, k requires 0 <= k < |projected| => projected[k].node)
  }

  class BrainView {
    var nodes: seq<Node>
    var edges: seq<Edge>
    var rotY: real
    var lastTime: real
    var mouse: Mouse
    var title: string
    var text: string

    /** Mounting: the graph is built, the clock starts at `now`, the pointer is outside and
        the panel shows its default texts. */
    constructor (sizes: seq<Sample>, importances: seq<Sample>, picks: seq<Sample>,
                 bigSizes: seq<Sample>, rankings: seq<seq<nat>>, now: real)
      requires |sizes| == NODE_COUNT && |importances| == NODE_COUNT && |rankings| == NODE_COUNT
      requires |picks| == HIGHLIGHT_COUNT && |bigSizes| == HIGHLIGHT_COUNT
      ensures nodes == Boosts(InitialNodes(sizes, importances), picks, bigSizes, HIGHLIGHT_COUNT)
      ensures edges == KnnEdges(rankings, NODE_COUNT)
      ensures rotY == 0.0 && lastTime == now && mouse == Mouse(0.0, 0.0, false)
      ensures title == DEFAULT_TITLE && text == DEFAULT_TEXT
    {
      nodes, edges := [], [];
      rotY, lastTime := 0.0, now;
      mouse := Mouse(0.0, 0.0, false);
      title, text := DEFAULT_TITLE, DEFAULT_TEXT;
      new;
      BuildNodes(sizes, importances, picks, bigSizes, rankings);
    }

    /** buildNodes: 90 nodes created in id order, eight random enlargements, and the
        nearest-neighbour edges. */
    method BuildNodes(sizes: seq<Sample>, importances: seq<Sample>, picks: seq<Sample>,
                      bigSizes: seq<Sample>, rankings: seq<seq<nat>>)
      requires |sizes| == NODE_COUNT && |importances| == NODE_COUNT && |rankings| == NODE_COUNT
      requires |picks| == HIGHLIGHT_COUNT && |bigSizes| == HIGHLIGHT_COUNT
      modifies this
      ensures nodes == Boosts(InitialNodes(sizes, importances), picks, bigSizes, HIGHLIGHT_COUNT)
      ensures edges == KnnEdges(rankings, NODE_COUNT)
      ensures rotY == old(rotY) && lastTime == old(lastTime) && mouse == old(mouse)
      ensures title == old(title) && text == old(text)
    {
      var created := CreateNodes(sizes, importances);
      var enlarged := EnlargeNodes(created, picks, bigSizes);
      assert |enlarged| == NODE_COUNT;
      var connected := ConnectNeighbours(|enlarged|, rankings);
      nodes, edges := enlarged, connected;
    }

    /** One animation frame: the graph turns by the elapsed time, and while the pointer is
        over the canvas the node nearest to it (in the depth-sorted order the frame draws)
        is returned for outlining; if it is within 50 pixels its label, note and importance
        are shown, otherwise the default texts. */
    method Draw(now: real, projected: seq<Projected>) returns (hovered: Option<nat>)
      requires multiset(DrawnNodes(projected)) == multiset(nodes)
      modifies this
      ensures lastTime == now && rotY == Spin(old(rotY), old(lastTime), now)
      ensures !mouse.isOver ==> hovered.None? && title == old(title) && text == old(text)
      ensures mouse.isOver ==> (hovered.Some? <==> projected != [])
      ensures hovered.Some? ==> IsNearest(Screens(projected), Point(mouse.x, mouse.y), hovered.value)
      ensures mouse.isOver && hovered.Some? && Picks(Screens(projected), Point(mouse.x, mouse.y), hovered.value) ==>
        title == Label(projected[hovered.value].node.id) && text == HoverText(projected[hovered.value].node)
      ensures mouse.isOver && !(hovered.Some? && Picks(Screens(projected), Point(mouse.x, mouse.y), hovered.value)) ==>
        title == DEFAULT_TITLE && text == DEFAULT_TEXT
      ensures nodes == old(nodes) && edges == old(edges) && mouse == old(mouse)
      ensures hovered.Some? ==> hovered.value < |projected| && projected[hovered.value].node in nodes
    {
      var dt := now - lastTime;
      lastTime := now;
      rotY := rotY + ROTATION_SPEED * dt;
      hovered := None;
      if mouse.isOver {
        var target := Point(mouse.x, mouse.y);
        hovered := NearestPoint(Screens(projected), target);
        if hovered.Some? {
          var drawn := DrawnNodes(projected);
          assert drawn[hovered.value] in multiset(drawn);
        }
        if hovered.Some? && SquaredDistance(projected[hovered.value].screen, target) < PICK_LIMIT {
          var node := projected[hovered.value].node;
          title := Label(node.id);
          text := HoverText(node);
        } else {
          title := DEFAULT_TITLE;
          text := DEFAULT_TEXT;
        }
      }
    }

    /** handlePointerMove: the pointer position is recorded and it is over the canvas. */
    method PointerMove(at: Point)
      modifies this
      ensures mouse == Mouse(at.x, at.y, true)
      ensures nodes == old(nodes) && edges == old(edges) && rotY == old(rotY) && lastTime == old(lastTime)
      ensures title == old(title) && text == old(text)
    {
      mouse := mouse.(x := at.x, y := at.y, isOver := true);
    }

    /** handlePointerLeave: the pointer is no longer over the canvas and the panel returns to
        its default texts. */
    method PointerLeave()
      modifies this
      ensures mouse == old(mouse).(isOver := false)
      ensures title == DEFAULT_TITLE && text == DEFAULT_TEXT
      ensures nodes == old(nodes) && edges == old(edges) && rotY == old(rotY) && lastTime == old(lastTime)
    {
      mouse := mouse.(isOver := false);
      title := DEFAULT_TITLE;
      text := DEFAULT_TEXT;
    }

    /** handleClick: only while the pointer is over the canvas, the node nearest to the click
        (with `screens[k]` the projected position of node k), if within 50 pixels, gets the
        deep-reasoning texts with a confidence drawn from `u`; otherwise nothing changes. */
    method Click(at: Point, screens: seq<Point>, u: Sample)
      requires |screens| == |nodes|
      modifies this
      ensures nodes == old(nodes) && edges == old(edges) && mouse == old(mouse)
      ensures !old(mouse).isOver ==> title == old(title) && text == old(text)
      ensures old(mouse).isOver ==> forall i: nat :: Picks(screens, at, i) ==>
        title == DeepTitle(nodes[i]) && text == DeepText(Confidence(u))
      ensures (forall i: nat :: !Picks(screens, at, i)) ==> title == old(title) && text == old(text)
      ensures rotY == old(rotY) && lastTime == old(lastTime)
    {
      if !mouse.isOver {
        return;
      }
      var nearest := NearestPoint(screens, at);
      if nearest.Some? {
        forall i: nat | IsNearest(screens, at, i) ensures i == nearest.value {
          NearestUnique(screens, at, i, nearest.value);
        }
      }
      if nearest.Some? && SquaredDistance(screens[nearest.value], at) < PICK_LIMIT {
        title := DeepTitle(nodes[nearest.value]);
        text := DeepText(Confidence(u));
      }
    }
  }
}
