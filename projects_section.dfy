/** The circuit-board background of the projects section
    (`drawCircuitBoard` in src/app/components/Projects.tsx): nodes on a
    grid, some of them kept, and links from each node to nearby nodes. */
module ProjectsSection {
  import opened Seqs
  import opened Grid

  // ---------------------------------------------------------------------
  // Sizes by window width

  /** The settings `drawCircuitBoard` picks from the window width. */
  datatype CircuitStyle = CircuitStyle(gridSize: nat, nodeSize: real, lineWidth: real, nodeDensity: real, maxDistance: real)

  /** Below 480 pixels: a 25-pixel grid, small nodes, density 0.8 and
      links up to one and a half cells; below 768: a 30-pixel grid; from
      768 on: a 50-pixel grid. Links reach two cells from 480 on. */
  function CircuitStyleFor(innerWidth: int): (s: CircuitStyle)
    ensures s.gridSize == 25 <==> innerWidth < 480
    ensures s.gridSize == 30 <==> 480 <= innerWidth < 768
    ensures s.gridSize == 50 <==> 768 <= innerWidth
    ensures s.nodeDensity == (if innerWidth < 480 then 0.8 else 0.7)
    ensures s.maxDistance == s.gridSize as real * (if innerWidth < 480 then 1.5 else 2.0)
    ensures s.gridSize > 0 && 0.0 < s.nodeSize <= 2.0 && 0.0 < s.lineWidth <= 1.0
  {
    var g := if innerWidth < 480 then 25 else if innerWidth < 768 then 30 else 50;
    CircuitStyle(
      g,
      if innerWidth < 480 then 1.0 else if innerWidth < 768 then 1.5 else 2.0,
      if innerWidth < 480 then 0.3 else if innerWidth < 768 then 0.5 else 1.0,
      if innerWidth < 480 then 0.8 else 0.7,
      if innerWidth < 480 then g as real * 1.5 else g as real * 2.0)
  }

  // ---------------------------------------------------------------------
  // Nodes

  /** A node of the board and the indices of the nodes it links to. */
  datatype CircuitNode = CircuitNode(at: Dot, connections: seq<nat>)

  /** A grid point becomes a node when its draw exceeds the density. */
  function Kept(keep: Dot -> real, density: real): Dot -> bool {
    (d: Dot) => keep(d) > density
  }

  /** The grid points the creation loops visit: the positive multiples of
      `g` inside the canvas, column by column. */
  function CircuitCells(width: nat, height: nat, g: nat): seq<Dot>
    requires g > 0
  {
    GridFrom(g, g, width, height, g)
  }

  function Positions(nodes: seq<CircuitNode>): (r: seq<Dot>)
    ensures |r| == |nodes| && forall k :: 0 <= k < |nodes| ==> r[k] == nodes[k].at
  {
    seq(|nodes|, k requires 0 <= k < |nodes| => nodes[k].at)
  }

  lemma PositionsSnoc(nodes: seq<CircuitNode>, node: CircuitNode)
    ensures Positions(nodes + [node]) == Positions(nodes) + [node.at]
  {
  }

  lemma FilterSnoc(s: seq<Dot>, d: Dot, p: Dot -> bool)
    ensures Filter(s + [d], p) == Filter(s, p) + (if p(d) then [d] else [])
  {
    FilterAppend(s, [d], p);
    assert Filter([d], p) == if p(d) then [d] else [];
  }

  function AbsInt(n: int): nat { if n < 0 then -n else n }

  /** `dx <= maxDistance && dy <= maxDistance` for
      `dx = Math.abs(node.x - targetNode.x)` and likewise `dy`. */
  predicate Near(a: Dot, b: Dot, maxDistance: real) {
    AbsInt(a.x - b.x) as real <= maxDistance && AbsInt(a.y - b.y) as real <= maxDistance
  }

  /** Node `i` links to node `j` when they differ, are near, and the draw
      for the pair exceeds 0.7. */
  predicate Linked(cells: seq<Dot>, i: nat, j: nat, maxDistance: real, link: (nat, nat) -> real)
    requires i < |cells| && j < |cells|
  {
    i != j && Near(cells[i], cells[j], maxDistance) && link(i, j) > 0.7
  }

  /** The targets node `i` records while `j` runs from 0 to `n - 1`. */
  function Targets(cells: seq<Dot>, i: nat, n: nat, maxDistance: real, link: (nat, nat) -> real): seq<nat>
    requires i < |cells| && n <= |cells|
    decreases n
  {
    if n == 0 then []
    else Targets(cells, i, n - 1, maxDistance, link) + (if Linked(cells, i, n - 1, maxDistance, link) then [n - 1] else [])
  }

  /** Node `i` records exactly the nodes below `n` it links to, each once,
      in increasing order; so never itself and never a node farther than
      `maxDistance` along either axis. */
  lemma {:induction false} TargetsExact(cells: seq<Dot>, i: nat, n: nat, maxDistance: real, link: (nat, nat) -> real)
    requires i < |cells| && n <= |cells|
    ensures forall j: nat :: j in Targets(cells, i, n, maxDistance, link) <==>
      j < n && Linked(cells, i, j, maxDistance, link)
    ensures forall a, b :: 0 <= a < b < |Targets(cells, i, n, maxDistance, link)| ==>
      Targets(cells, i, n, maxDistance, link)[a] < Targets(cells, i, n, maxDistance, link)[b]
    decreases n
  {
    if n > 0 {
      var before := Targets(cells, i, n - 1, maxDistance, link);
      TargetsExact(cells, i, n - 1, maxDistance, link);
      assert forall j :: j in before ==> j < n - 1;
      var t := Targets(cells, i, n, maxDistance, link);
      if Linked(cells, i, n - 1, maxDistance, link) {
        assert t == before + [n - 1];
        assert forall a :: 0 <= a < |before| ==> t[a] == before[a] && before[a] in before;
      } else {
        assert t == before;
      }
    }
  }

  /** The inner creation loop for column `x`: `y` runs down the column
      and a node is pushed wherever the draw exceeds the density. */
  method CreateColumn(nodes: seq<CircuitNode>, x: nat, height: nat, g: nat, keep: Dot -> real, density: real)
    returns (r: seq<CircuitNode>)
    requires g > 0
    ensures Positions(r) == Positions(nodes) + Filter(ColumnFrom(x, g, height, g), Kept(keep, density))
    ensures forall k :: 0 <= k < |nodes| ==> r[k] == nodes[k]
    ensures forall k :: |nodes| <= k < |r| ==> r[k].connections == []
  {
    ghost var p := Kept(keep, density);
    ghost var visited: seq<Dot> := [];
    r := nodes;
    var y: nat := g;
    while y < height
      invariant visited + ColumnFrom(x, y, height, g) == ColumnFrom(x, g, height, g)
      invariant Positions(r) == Positions(nodes) + Filter(visited, p)
      invariant |nodes| <= |r| && forall k :: 0 <= k < |nodes| ==> r[k] == nodes[k]
      invariant forall k :: |nodes| <= k < |r| ==> r[k].connections == []
      decreases height - y
    {
      var d := Dot(x, y);
      NextRow(visited, x, y, height, g);
      VisitPoint(nodes, r, visited, d, keep, density);
      if keep(d) > density {
        r := r + [CircuitNode(d, [])];
      }
      visited := visited + [d];
      y := y + g;
    }
    LastRow(visited, x, y, height, g);
  }

  /** Visiting point `d` pushes a node for it exactly when its draw
      passes, which keeps the positions equal to the kept points. */
  lemma VisitPoint(nodes: seq<CircuitNode>, r: seq<CircuitNode>, visited: seq<Dot>, d: Dot, keep: Dot -> real, density: real)
    requires Positions(r) == Positions(nodes) + Filter(visited, Kept(keep, density))
    ensures keep(d) > density ==>
      Positions(r + [CircuitNode(d, [])]) == Positions(nodes) + Filter(visited + [d], Kept(keep, density))
    ensures keep(d) <= density ==> Positions(r) == Positions(nodes) + Filter(visited + [d], Kept(keep, density))
  {
    var p := Kept(keep, density);
    FilterSnoc(visited, d, p);
    PositionsSnoc(r, CircuitNode(d, []));
    assert p(d) == (keep(d) > density);
  }

  /** Once `y` passes the height the whole column has been visited. */
  lemma LastRow(visited: seq<Dot>, x: nat, y: nat, height: nat, g: nat)
    requires g > 0 && y >= height && visited + ColumnFrom(x, y, height, g) == ColumnFrom(x, g, height, g)
    ensures visited == ColumnFrom(x, g, height, g)
  {
    assert visited + [] == visited;
  }

  /** The creation loops of `drawCircuitBoard`: a node, with no links
      yet, for every visited grid point whose draw `keep` exceeds the
      density. The draws come as a function of the grid point. */
  method CreateNodes(width: nat, height: nat, g: nat, keep: Dot -> real, density: real)
    returns (nodes: seq<CircuitNode>)
    requires g > 0
    ensures Positions(nodes) == Filter(CircuitCells(width, height, g), Kept(keep, density))
    ensures forall k :: 0 <= k < |nodes| ==> nodes[k].connections == []
  {
    ghost var p := Kept(keep, density);
    ghost var visited: seq<Dot> := [];
    nodes := [];
    var x: nat := g;
    while x < width
      invariant visited + GridFrom(x, g, width, height, g) == CircuitCells(width, height, g)
      invariant Positions(nodes) == Filter(visited, p)
      invariant forall k :: 0 <= k < |nodes| ==> nodes[k].connections == []
      decreases width - x
    {
      ghost var column := ColumnFrom(x, g, height, g);
      NextColumn(visited, x, g, width, height, g);
      FilterAppend(visited, column, p);
      nodes := CreateColumn(nodes, x, height, g, keep, density);
      visited := visited + column;
      x := x + g;
    }
    LastColumn(visited, x, width, height, g);
  }

  /** Once `x` passes the width every column has been visited. */
  lemma LastColumn(visited: seq<Dot>, x: nat, width: nat, height: nat, g: nat)
    requires g > 0 && x >= width && visited + GridFrom(x, g, width, height, g) == CircuitCells(width, height, g)
    ensures visited == CircuitCells(width, height, g)
  {
    assert visited + [] == visited;
  }

  /** The inner linking loop for node `i`: `j` runs over every node and is
      pushed onto node `i`'s connections when the two are linked. */
  method LinkNode(nodes: seq<CircuitNode>, i: nat, maxDistance: real, link: (nat, nat) -> real)
    returns (r: seq<CircuitNode>)
    requires i < |nodes| && nodes[i].connections == []
    ensures Positions(r) == Positions(nodes)
    ensures r[i].connections == Targets(Positions(nodes), i, |nodes|, maxDistance, link)
    ensures forall k :: 0 <= k < |r| && k != i ==> r[k] == nodes[k]
  {
    ghost var cells := Positions(nodes);
    r := nodes;
    for j := 0 to |nodes|
      invariant Positions(r) == cells
      invariant r[i].connections == Targets(cells, i, j, maxDistance, link)
      invariant forall k :: 0 <= k < |r| && k != i ==> r[k] == nodes[k]
    {
      var a, b := r[i].at, r[j].at;
      if i != j && AbsInt(a.x - b.x) as real <= maxDistance && AbsInt(a.y - b.y) as real <= maxDistance
        && link(i, j) > 0.7
      {
        r := r[i := r[i].(connections := r[i].connections + [j])];
      }
    }
  }

  /** `drawCircuitBoard` without the painting: create the nodes, then for
      each node `i` record every node it links to. The link draws come as
      a function of the pair. */
  method DrawCircuitBoard(width: nat, height: nat, innerWidth: int, keep: Dot -> real, link: (nat, nat) -> real)
    returns (nodes: seq<CircuitNode>)
    ensures var style := CircuitStyleFor(innerWidth);
      Positions(nodes) == Filter(CircuitCells(width, height, style.gridSize), Kept(keep, style.nodeDensity))
    ensures forall k :: 0 <= k < |nodes| ==>
      nodes[k].connections == Targets(Positions(nodes), k, |nodes|, CircuitStyleFor(innerWidth).maxDistance, link)
  {
    var style := CircuitStyleFor(innerWidth);
    nodes := CreateNodes(width, height, style.gridSize, keep, style.nodeDensity);
    ghost var cells := Positions(nodes);
    var n := |nodes|;
    for i := 0 to n
      invariant |nodes| == n && Positions(nodes) == cells
      invariant forall k :: 0 <= k < i ==> nodes[k].connections == Targets(cells, k, n, style.maxDistance, link)
      invariant forall k :: i <= k < n ==> nodes[k].connections == []
    {
      nodes := LinkNode(nodes, i, style.maxDistance, link);
    }
  }

  /** The nodes lie on positive multiples of the grid size strictly inside
      the canvas, and a grid point there is a node exactly when its draw
      exceeds the density; they come column by column. */
  lemma CircuitNodesOnGrid(width: nat, height: nat, g: nat, keep: Dot -> real, density: real)
    requires g > 0
    ensures forall d :: d in Filter(CircuitCells(width, height, g), Kept(keep, density)) ==>
      g <= d.x < width && g <= d.y < height && d.x % g == 0 && d.y % g == 0 && keep(d) > density
    ensures forall X: nat, Y: nat :: g <= X < width && g <= Y < height && X % g == 0 && Y % g == 0 ==>
      (Dot(X, Y) in Filter(CircuitCells(width, height, g), Kept(keep, density)) <==> keep(Dot(X, Y)) > density)
  {
    GridFacts(g, g, width, height, g);
    assert g % g == 0;
  }

  /** Nodes with links are drawn brighter. */
  function NodeAlpha(node: CircuitNode): (alpha: real)
    ensures alpha == 0.3 <==> |node.connections| > 0
    ensures alpha == 0.15 <==> node.connections == []
  {
    if |node.connections| > 0 then 0.3 else 0.15
  }
}
