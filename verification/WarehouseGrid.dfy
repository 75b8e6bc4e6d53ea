/** The grid of the route planner: `endpoints`, the four moves in U, R, D, L order, and what a legal
    route is. */
module WarehouseGrid {
  import opened Outcomes

  type Grid = seq<string>

  datatype Pos = Pos(r: int, c: int)

  type Edges = set<(Pos, Pos)>

  type Path = seq<Pos>

  predicate Rectangular(rows: Grid) {
    |rows| > 0 && |rows[0]| > 0 && forall r :: 0 <= r < |rows| ==> |rows[r]| == |rows[0]|
  }

  const TILES := "#.SEabcdABCD"

  predicate KnownTiles(rows: Grid) {
    forall r, c :: 0 <= r < |rows| && 0 <= c < |rows[r]| ==> rows[r][c] in TILES
  }

  predicate Inside(rows: Grid, p: Pos) {
    0 <= p.r < |rows| && 0 <= p.c < |rows[p.r]|
  }

  function Tile(rows: Grid, p: Pos): char
    requires Inside(rows, p)
  {
    rows[p.r][p.c]
  }

  /** Where tile x stands in row r, from column c on. */
  function FindInRow(row: string, r: nat, c: nat, x: char): (found: seq<Pos>)
    requires c <= |row|
    decreases |row| - c
    ensures forall p :: p in found <==> p.r == r && c <= p.c < |row| && row[p.c] == x
    ensures forall i, j :: 0 <= i < j < |found| ==> found[i] != found[j]
  {
    if c == |row| then []
    else if row[c] == x then [Pos(r, c)] + FindInRow(row, r, c + 1, x)
    else FindInRow(row, r, c + 1, x)
  }

  function Find(rows: Grid, r: nat, x: char): (found: seq<Pos>)
    requires r <= |rows|
    decreases |rows| - r
    ensures forall p :: p in found <==> r <= p.r && Inside(rows, p) && Tile(rows, p) == x
    ensures forall i, j :: 0 <= i < j < |found| ==> found[i] != found[j]
  {
    if r == |rows| then []
    else
      var here, below := FindInRow(rows[r], r, 0, x), Find(rows, r + 1, x);
      assert forall i, j :: 0 <= i < |here| && 0 <= j < |below| ==> here[i] in here && below[j] in below;
      here + below
  }

  ghost predicate Unique(rows: Grid, x: char, p: Pos) {
    Inside(rows, p) && Tile(rows, p) == x && forall q :: Inside(rows, q) && Tile(rows, q) == x ==> q == p
  }

  ghost predicate ValidGrid(rows: Grid) {
    Rectangular(rows) && KnownTiles(rows) && (exists p :: Unique(rows, 'S', p)) && (exists p :: Unique(rows, 'E', p))
  }

  /** `endpoints`: None is its ValueError. */
  function Endpoints(rows: Grid): (r: Option<(Pos, Pos)>)
    ensures r.Some? <==> ValidGrid(rows)
    ensures r.Some? ==> Unique(rows, 'S', r.value.0) && Unique(rows, 'E', r.value.1)
  {
    if !Rectangular(rows) || !KnownTiles(rows) then None
    else
      var start, end := Find(rows, 0, 'S'), Find(rows, 0, 'E');
      OneFound(rows, 'S');
      OneFound(rows, 'E');
      if |start| != 1 || |end| != 1 then None else Some((start[0], end[0]))
  }

  lemma TwoDiffer(s: seq<Pos>, p: Pos)
    requires |s| >= 2 && forall i, j :: 0 <= i < j < |s| ==> s[i] != s[j]
    ensures exists i :: 0 <= i < |s| && s[i] != p
  {
    assert s[0] != s[1];
  }

  lemma OneFound(rows: Grid, x: char)
    ensures |Find(rows, 0, x)| == 1 <==> exists p :: Unique(rows, x, p)
    ensures |Find(rows, 0, x)| == 1 ==> Unique(rows, x, Find(rows, 0, x)[0])
  {
    var found := Find(rows, 0, x);
    if |found| == 1 {
      assert found[0] in found;
      assert forall q :: q in found ==> q == found[0];
      assert Unique(rows, x, found[0]);
    }
    if p :| Unique(rows, x, p) {
      assert p in found;
      assert |found| > 0;
      assert forall i :: 0 <= i < |found| ==> found[i] in found && found[i] == p;
      if |found| >= 2 { TwoDiffer(found, p); }
    }
  }

  /** Which grids are accepted: rows of one positive length, of known tiles, with one start and one exit. */
  lemma AcceptedGrids(rows: Grid)
    ensures Endpoints(rows).Some? <==>
            && |rows| > 0 && |rows[0]| > 0
            && (forall i :: 0 <= i < |rows| ==> |rows[i]| == |rows[0]|)
            && (forall i, j :: 0 <= i < |rows| && 0 <= j < |rows[i]| ==> rows[i][j] in "#.SEabcdABCD")
            && (exists p :: Unique(rows, 'S', p)) && (exists p :: Unique(rows, 'E', p))
  {
  }

  // ---------- Moves and routes ----------

  /** The neighbours of a cell in search order: up, right, down, left. */
  function Neighbor(p: Pos, d: nat): Pos
    requires d < 4
  {
    if d == 0 then Pos(p.r - 1, p.c)
    else if d == 1 then Pos(p.r, p.c + 1)
    else if d == 2 then Pos(p.r + 1, p.c)
    else Pos(p.r, p.c - 1)
  }

  /** One row or one column apart. */
  predicate Adjacent(p: Pos, q: Pos) {
    || (p.c == q.c && (q.r == p.r - 1 || q.r == p.r + 1))
    || (p.r == q.r && (q.c == p.c - 1 || q.c == p.c + 1))
  }

  /** The four moves lead exactly to the adjacent cells. */
  lemma AdjacentByMove(p: Pos, q: Pos)
    ensures Adjacent(p, q) <==> exists d: nat :: d < 4 && q == Neighbor(p, d)
  {
    if Adjacent(p, q) {
      assert q == Neighbor(p, 0) || q == Neighbor(p, 1) || q == Neighbor(p, 2) || q == Neighbor(p, 3);
    }
  }

  predicate IsGate(t: char): (gate: bool)
    ensures gate <==> t in {'A', 'B', 'C', 'D'}
  {
    'A' <= t <= 'D'
  }

  predicate IsBadge(t: char): (badge: bool)
    ensures badge <==> t in {'a', 'b', 'c', 'd'}
  {
    'a' <= t <= 'd'
  }

  /** The badge that opens a gate: the same letter in lower case. */
  function BadgeFor(gate: char): (badge: char)
    requires IsGate(gate)
    ensures (gate, badge) in {('A', 'a'), ('B', 'b'), ('C', 'c'), ('D', 'd')}
  {
    (gate as int - 'A' as int + 'a' as int) as char
  }

  /** One step of a path: adjacent, in the grid, not a wall, not a forbidden directed edge, and a
      gate only after its badge has been visited. */
  ghost predicate LegalStep(rows: Grid, forbidden: Edges, path: Path, k: nat)
    requires k + 1 < |path| && forall i :: 0 <= i < |path| ==> Inside(rows, path[i])
  {
    var p, q := path[k], path[k + 1];
    && Adjacent(p, q)
    && (p, q) !in forbidden
    && Tile(rows, q) != '#'
    && (IsGate(Tile(rows, q)) ==> exists j :: 0 <= j <= k && Tile(rows, path[j]) == BadgeFor(Tile(rows, q)))
  }

  ghost predicate LegalWalk(rows: Grid, forbidden: Edges, start: Pos, path: Path) {
    && |path| > 0 && path[0] == start
    && (forall i :: 0 <= i < |path| ==> Inside(rows, path[i]))
    && (forall k :: 0 <= k < |path| - 1 ==> LegalStep(rows, forbidden, path, k))
  }

  ghost predicate LegalRoute(rows: Grid, forbidden: Edges, start: Pos, end: Pos, path: Path) {
    LegalWalk(rows, forbidden, start, path) && path[|path| - 1] == end
  }

  lemma WalkPrefix(rows: Grid, forbidden: Edges, start: Pos, path: Path)
    requires LegalWalk(rows, forbidden, start, path) && |path| > 1
    ensures LegalWalk(rows, forbidden, start, path[..|path| - 1])
  {
    var front := path[..|path| - 1];
    forall k | 0 <= k < |front| - 1 ensures LegalStep(rows, forbidden, front, k) {
      assert LegalStep(rows, forbidden, path, k);
      if IsGate(Tile(rows, front[k + 1])) {
        var j :| 0 <= j <= k && Tile(rows, path[j]) == BadgeFor(Tile(rows, path[k + 1]));
        assert Tile(rows, front[j]) == BadgeFor(Tile(rows, front[k + 1]));
      }
    }
  }

  // ---------- The order in which routes are preferred ----------

  /** Where q lies from p, in the order of preference: above, to the right, below, to the left. */
  function Rank(p: Pos, q: Pos): int {
    if q.r < p.r then 0
    else if q.c > p.c then 1
    else if q.r > p.r then 2
    else 3
  }

  /** The search tries the adjacent cells in that order. */
  lemma MovesInOrder(p: Pos, d: nat)
    requires d < 4
    ensures Adjacent(p, Neighbor(p, d)) && Rank(p, Neighbor(p, d)) == d
  {
  }

  /** a and b first differ at step k, and there `a` takes the earlier of U, R, D, L. */
  ghost predicate TurnsAt(a: Path, b: Path, k: nat) {
    1 <= k < |a| && k < |b| && (forall i :: 0 <= i < k ==> a[i] == b[i]) && Rank(a[k - 1], a[k]) < Rank(b[k - 1], b[k])
  }

  ghost predicate TurnsBefore(a: Path, b: Path) {
    |a| == |b| && exists k :: TurnsAt(a, b, k)
  }

  /** Shorter, or equally short and first in U, R, D, L order, or the same path. */
  ghost predicate AtMost(a: Path, b: Path) {
    a == b || |a| < |b| || TurnsBefore(a, b)
  }

  lemma TurnsBeforeTransitive(a: Path, b: Path, c: Path)
    requires TurnsBefore(a, b) && TurnsBefore(b, c)
    ensures TurnsBefore(a, c)
  {
    var j: nat :| TurnsAt(a, b, j);
    var k: nat :| TurnsAt(b, c, k);
    assert TurnsAt(a, c, if j < k then j else k);
  }

  lemma AtMostTransitive(a: Path, b: Path, c: Path)
    requires AtMost(a, b) && AtMost(b, c)
    ensures AtMost(a, c)
  {
    if TurnsBefore(a, b) && TurnsBefore(b, c) { TurnsBeforeTransitive(a, b, c); }
  }

  lemma TurnsBeforeAppend(a: Path, b: Path, p: Pos, q: Pos)
    requires TurnsBefore(a, b)
    ensures TurnsBefore(a + [p], b + [q])
  {
    var k: nat :| TurnsAt(a, b, k);
    assert TurnsAt(a + [p], b + [q], k);
  }

  lemma AtMostAppend(a: Path, b: Path, p: Pos)
    requires AtMost(a, b)
    ensures AtMost(a + [p], b + [p])
  {
    if TurnsBefore(a, b) { TurnsBeforeAppend(a, b, p, p); }
  }
}
