/** `shortest_route`: breadth-first search over (cell, badges) states, as written below the
    placeholder `raise`. */
module WarehouseRoute {
  import opened Basics
  import opened Outcomes
  import opened WarehouseGrid

  type Badges = bv4

  datatype State = State(pos: Pos, badges: Badges)

  function Bit(tile: char): Badges {
    match tile
    case 'a' | 'A' => 1
    case 'b' | 'B' => 2
    case 'c' | 'C' => 4
    case 'd' | 'D' => 8
    case _ => 0
  }

  function Collect(tile: char, badges: Badges): Badges {
    if IsBadge(tile) then badges | Bit(tile) else badges
  }

  /** One attempt of the inner loop: the state it leads to, or None where the source continues. */
  function Next(rows: Grid, forbidden: Edges, s: State, d: nat): Option<State>
    requires d < 4 && Rectangular(rows)
  {
    var q := Neighbor(s.pos, d);
    if !(0 <= q.r < |rows| && 0 <= q.c < |rows[0]|) then None
    else if (s.pos, q) in forbidden then None
    else
      var tile := Tile(rows, q);
      if tile == '#' then None
      else if IsGate(tile) && s.badges & Bit(tile) == 0 then None
      else Some(State(q, Collect(tile, s.badges)))
  }

  // ---------- States against walks ----------

  ghost function BadgesOn(rows: Grid, path: Path): Badges
    requires forall i :: 0 <= i < |path| ==> Inside(rows, path[i])
  {
    if path == [] then 0
    else Collect(Tile(rows, path[|path| - 1]), BadgesOn(rows, path[..|path| - 1]))
  }

  ghost function StateOf(rows: Grid, path: Path): State
    requires |path| > 0 && forall i :: 0 <= i < |path| ==> Inside(rows, path[i])
  {
    State(path[|path| - 1], BadgesOn(rows, path))
  }

  lemma CollectBits(tile: char, badges: Badges, gate: char)
    requires IsGate(gate)
    ensures Collect(tile, badges) & Bit(gate) != 0 <==> badges & Bit(gate) != 0 || tile == BadgeFor(gate)
  {
  }

  lemma {:induction false} BadgeHeld(rows: Grid, path: Path, gate: char)
    requires IsGate(gate) && forall i :: 0 <= i < |path| ==> Inside(rows, path[i])
    ensures BadgesOn(rows, path) & Bit(gate) != 0 <==>
            exists j :: 0 <= j < |path| && Tile(rows, path[j]) == BadgeFor(gate)
  {
    if path == [] {
      assert (0 as bv4) & Bit(gate) == 0;
    } else {
      var front := path[..|path| - 1];
      BadgeHeld(rows, front, gate);
      CollectBits(Tile(rows, path[|path| - 1]), BadgesOn(rows, front), gate);
      if j :| 0 <= j < |front| && Tile(rows, front[j]) == BadgeFor(gate) {
        assert Tile(rows, path[j]) == BadgeFor(gate);
      }
      if j :| 0 <= j < |path| && Tile(rows, path[j]) == BadgeFor(gate) {
        assert j < |front| ==> Tile(rows, front[j]) == BadgeFor(gate);
      }
    }
  }

  /** The search's next states are exactly the legal one-step extensions of a walk. */
  lemma NextExtends(rows: Grid, forbidden: Edges, start: Pos, path: Path, d: nat)
    requires d < 4 && Rectangular(rows) && LegalWalk(rows, forbidden, start, path)
    ensures var q := Neighbor(path[|path| - 1], d);
            var next := Next(rows, forbidden, StateOf(rows, path), d);
            && (next.Some? <==> LegalWalk(rows, forbidden, start, path + [q]))
            && (next.Some? ==> next.value == StateOf(rows, path + [q]))
  {
    var s := StateOf(rows, path);
    var q := Neighbor(s.pos, d);
    var longer := path + [q];
    assert longer[|path|] == q;
    if Inside(rows, q) {
      if IsGate(Tile(rows, q)) { BadgeHeld(rows, path, Tile(rows, q)); }
      assert longer[..|path|] == path;
      assert forall j :: 0 <= j < |path| ==> Tile(rows, longer[j]) == Tile(rows, path[j]);
      if Next(rows, forbidden, s, d).Some? {
        forall k | 0 <= k < |path| ensures LegalStep(rows, forbidden, longer, k) {
          if k < |path| - 1 {
            assert LegalStep(rows, forbidden, path, k);
            if IsGate(Tile(rows, path[k + 1])) {
              var j :| 0 <= j <= k && Tile(rows, path[j]) == BadgeFor(Tile(rows, path[k + 1]));
              assert Tile(rows, longer[j]) == BadgeFor(Tile(rows, longer[k + 1]));
            }
          } else if IsGate(Tile(rows, q)) {
            var j :| 0 <= j < |path| && Tile(rows, path[j]) == BadgeFor(Tile(rows, q));
            assert Tile(rows, longer[j]) == BadgeFor(Tile(rows, longer[k + 1]));
          }
        }
      }
      if LegalWalk(rows, forbidden, start, longer) {
        assert LegalStep(rows, forbidden, longer, |path| - 1);
      }
    }
  }

  // ---------- The search ----------

  datatype Entry = Entry(state: State, path: Path)

  type Found = map<State, Path>

  /** How the queue is ordered: `later` is as long and turns after `sooner`, or is one longer and
      extends a path that turns before `sooner`. */
  ghost predicate InOrder(sooner: Path, later: Path) {
    || TurnsBefore(sooner, later)
    || (|later| == |sooner| + 1 && TurnsBefore(later[..|sooner|], sooner))
  }

  /** What holds of the queue, the seen states (each with the path it was found by), and the states
      already expanded. */
  ghost predicate Searching(rows: Grid, forbidden: Edges, start: Pos, found: Found, queue: seq<Entry>,
                            done: set<State>)
  {
    && (forall s :: s in found ==> LegalWalk(rows, forbidden, start, found[s]) && StateOf(rows, found[s]) == s)
    && (forall i :: 0 <= i < |queue| ==>
          queue[i].state in found && queue[i].path == found[queue[i].state] && queue[i].state !in done)
    && (forall i, j :: 0 <= i < j < |queue| ==> InOrder(queue[i].path, queue[j].path))
    && done <= found.Keys
    && (forall s, i :: s in done && 0 <= i < |queue| ==> |found[s]| <= |queue[i].path|)
  }

  /** Every seen state is expanded, queued, or the one now being expanded. */
  ghost predicate Accounted(found: Found, queue: seq<Entry>, done: set<State>)
  {
    forall s :: s in found ==> s in done || exists i :: 0 <= i < |queue| && queue[i].state == s
  }

  /** Move d from s, if there is one, leads to a seen state found by a path no worse than through s. */
  ghost predicate Expanded(rows: Grid, forbidden: Edges, found: Found, s: State, d: nat)
    requires Rectangular(rows) && s in found && d < 4
  {
    var next := Next(rows, forbidden, s, d);
    next.Some? ==> next.value in found && AtMost(found[next.value], found[s] + [next.value.pos])
  }

  ghost predicate AllExpanded(rows: Grid, forbidden: Edges, end: Pos, found: Found, done: set<State>)
    requires Rectangular(rows) && done <= found.Keys
  {
    forall s :: s in done ==> s.pos != end && forall d: nat :: d < 4 ==> Expanded(rows, forbidden, found, s, d)
  }

  /** The invariant of the outer loop. */
  ghost predicate Sound(rows: Grid, forbidden: Edges, start: Pos, end: Pos, found: Found, queue: seq<Entry>,
                        done: set<State>)
  {
    && Rectangular(rows)
    && Searching(rows, forbidden, start, found, queue, done)
    && Accounted(found, queue, done)
    && AllExpanded(rows, forbidden, end, found, done)
    && State(start, 0) in found && found[State(start, 0)] == [start]
  }

  /** Every legal walk either ends in an expanded state found no later than by this walk, or some
      queued path is at most the walk. */
  lemma {:induction false} Frontier(rows: Grid, forbidden: Edges, start: Pos, end: Pos, found: Found,
                                    queue: seq<Entry>, done: set<State>, walk: Path)
    requires Sound(rows, forbidden, start, end, found, queue, done) && LegalWalk(rows, forbidden, start, walk)
    ensures || (StateOf(rows, walk) in done && AtMost(found[StateOf(rows, walk)], walk))
            || (exists i :: 0 <= i < |queue| && AtMost(queue[i].path, walk))
    decreases |walk|
  {
    if |walk| == 1 {
      assert walk == [start] && StateOf(rows, walk) == State(start, 0);
    } else {
      var front, last := walk[..|walk| - 1], walk[|walk| - 1];
      assert front + [last] == walk;
      WalkPrefix(rows, forbidden, start, walk);
      Frontier(rows, forbidden, start, end, found, queue, done, front);
      if i :| 0 <= i < |queue| && AtMost(queue[i].path, front) {
        assert AtMost(queue[i].path, walk);
      } else {
        FrontierStep(rows, forbidden, start, end, found, queue, done, front, walk);
      }
    }
  }

  /** A walk one longer than one that ends in an expanded state was found no later than by it. */
  lemma FrontierStep(rows: Grid, forbidden: Edges, start: Pos, end: Pos, found: Found, queue: seq<Entry>,
                     done: set<State>, front: Path, walk: Path)
    requires Sound(rows, forbidden, start, end, found, queue, done) && LegalWalk(rows, forbidden, start, walk)
    requires |walk| > 1 && front == walk[..|walk| - 1] && LegalWalk(rows, forbidden, start, front)
    requires StateOf(rows, front) in done && AtMost(found[StateOf(rows, front)], front)
    ensures StateOf(rows, walk) in found && AtMost(found[StateOf(rows, walk)], walk)
  {
    var s, last := StateOf(rows, front), walk[|walk| - 1];
    assert front + [last] == walk;
    assert LegalStep(rows, forbidden, walk, |walk| - 2);
    AdjacentByMove(front[|front| - 1], last);
    var d: nat :| d < 4 && last == Neighbor(front[|front| - 1], d);
    NextExtends(rows, forbidden, start, front, d);
    assert Expanded(rows, forbidden, found, s, d);
    AtMostAppend(found[s], front, last);
    AtMostTransitive(found[StateOf(rows, walk)], found[s] + [last], walk);
  }

  /** The head of the queue is at most every other queued path. */
  lemma HeadFirst(rows: Grid, forbidden: Edges, start: Pos, found: Found, queue: seq<Entry>, done: set<State>, i: nat)
    requires Searching(rows, forbidden, start, found, queue, done) && i < |queue|
    ensures AtMost(queue[0].path, queue[i].path)
  {
    if i > 0 { assert InOrder(queue[0].path, queue[i].path); }
  }

  /** A popped path that stands on the exit is at most every legal route. */
  lemma HeadIsBest(rows: Grid, forbidden: Edges, start: Pos, end: Pos, found: Found, queue: seq<Entry>,
                   done: set<State>, route: Path)
    requires Sound(rows, forbidden, start, end, found, queue, done)
    requires LegalRoute(rows, forbidden, start, end, route)
    ensures |queue| > 0 && AtMost(queue[0].path, route)
  {
    Frontier(rows, forbidden, start, end, found, queue, done, route);
    var i :| 0 <= i < |queue| && AtMost(queue[i].path, route);
    HeadFirst(rows, forbidden, start, found, queue, done, i);
    AtMostTransitive(queue[0].path, queue[i].path, route);
  }

  // ---------- Expanding one state ----------

  /** While `path` is being expanded, every queued path either followed it in the queue or is a
      child of it by an earlier move than d. */
  ghost predicate AfterHead(path: Path, queue: seq<Entry>, d: nat)
    requires |path| > 0
  {
    forall i :: 0 <= i < |queue| ==>
      var e := queue[i].path;
      || InOrder(path, e)
      || (|e| == |path| + 1 && e[..|path|] == path && Rank(path[|path| - 1], e[|path|]) < d)
  }

  lemma ChildInOrder(path: Path, queue: seq<Entry>, d: nat, i: nat)
    requires |path| > 0 && d < 4 && i < |queue| && AfterHead(path, queue, d)
    ensures var child := path + [Neighbor(path[|path| - 1], d)];
            InOrder(queue[i].path, child) && AtMost(queue[i].path, child)
  {
    var e, q := queue[i].path, Neighbor(path[|path| - 1], d);
    var child := path + [q];
    assert child[..|path|] == path && Rank(path[|path| - 1], q) == d;
    if |e| == |path| + 1 {
      assert e[..|path|] + [e[|path|]] == e;
      if TurnsBefore(e[..|path|], path) {
        TurnsBeforeAppend(e[..|path|], path, e[|path|], q);
      } else {
        assert forall k :: 0 <= k < |path| ==> e[k] == e[..|path|][k];
        assert TurnsAt(e, child, |path|);
      }
    }
  }

  ghost predicate KeepsFound(before: Found, after: Found) {
    forall s :: s in before ==> s in after && after[s] == before[s]
  }

  ghost predicate AccountedBut(found: Found, queue: seq<Entry>, done: set<State>, head: State) {
    forall s :: s in found ==> s == head || s in done || exists i :: 0 <= i < |queue| && queue[i].state == s
  }

  /** The search while `head` is popped and its first d moves have been tried. */
  ghost predicate HeadOpen(rows: Grid, forbidden: Edges, start: Pos, head: Entry, found: Found, queue: seq<Entry>,
                           done: set<State>, d: nat)
  {
    && |head.path| > 0 && head.state in found && found[head.state] == head.path && head.state !in done
    && Searching(rows, forbidden, start, found, queue, done)
    && AccountedBut(found, queue, done, head.state)
    && AfterHead(head.path, queue, d)
    && (forall s :: s in done ==> |found[s]| <= |head.path|)
  }

  lemma HeadAdvances(rows: Grid, forbidden: Edges, start: Pos, head: Entry, found: Found, queue: seq<Entry>,
                     done: set<State>, d: nat)
    requires HeadOpen(rows, forbidden, start, head, found, queue, done, d)
    ensures HeadOpen(rows, forbidden, start, head, found, queue, done, d + 1)
  {
  }

  /** The first n moves from s have been tried. */
  ghost predicate ExpandedTo(rows: Grid, forbidden: Edges, found: Found, s: State, n: nat)
    requires Rectangular(rows) && n <= 4
  {
    s in found && forall k: nat :: k < n ==> Expanded(rows, forbidden, found, s, k)
  }

  lemma ExpandedStays(rows: Grid, forbidden: Edges, before: Found, after: Found, s: State, n: nat)
    requires Rectangular(rows) && n <= 4 && KeepsFound(before, after) && ExpandedTo(rows, forbidden, before, s, n)
    ensures ExpandedTo(rows, forbidden, after, s, n)
  {
    forall k: nat | k < n ensures Expanded(rows, forbidden, after, s, k) {
      assert Expanded(rows, forbidden, before, s, k);
    }
  }

  /** One attempt: move d of the popped head. */
  method TryMove(rows: Grid, forbidden: Edges, ghost start: Pos, head: Entry, queue: seq<Entry>, seen: set<State>,
                 ghost found: Found, ghost done: set<State>, d: nat)
    returns (queue': seq<Entry>, seen': set<State>, ghost found': Found)
    requires Rectangular(rows) && seen == found.Keys && d < 4
    requires HeadOpen(rows, forbidden, start, head, found, queue, done, d)
    ensures seen' == found'.Keys && KeepsFound(found, found')
    ensures HeadOpen(rows, forbidden, start, head, found', queue', done, d + 1)
    ensures Expanded(rows, forbidden, found', head.state, d)
  {
    queue', seen', found' := queue, seen, found;
    HeadAdvances(rows, forbidden, start, head, found, queue, done, d);
    var next := Next(rows, forbidden, head.state, d);
    if next.Some? {
      assert LegalWalk(rows, forbidden, start, head.path) && StateOf(rows, head.path) == head.state;
      NextExtends(rows, forbidden, start, head.path, d);
      if next.value !in seen {
        var child := Entry(next.value, head.path + [next.value.pos]);
        found', queue', seen' := Enqueue(rows, forbidden, start, head, found, queue, seen, done, child, d);
      } else {
        SeenIsNoWorse(rows, forbidden, start, head, found, queue, done, next.value, d);
      }
    }
  }

  lemma KeepsTransitive(a: Found, b: Found, c: Found)
    requires KeepsFound(a, b) && KeepsFound(b, c)
    ensures KeepsFound(a, c)
  {
  }

  lemma OneMoreExpanded(rows: Grid, forbidden: Edges, found: Found, s: State, d: nat)
    requires Rectangular(rows) && d < 4 && ExpandedTo(rows, forbidden, found, s, d) &&
             Expanded(rows, forbidden, found, s, d)
    ensures ExpandedTo(rows, forbidden, found, s, d + 1)
  {
  }

  /** The inner loop. */
  method Expand(rows: Grid, forbidden: Edges, ghost start: Pos, head: Entry, queue: seq<Entry>, seen: set<State>,
                ghost found: Found, ghost done: set<State>)
    returns (queue': seq<Entry>, seen': set<State>, ghost found': Found)
    requires Rectangular(rows) && seen == found.Keys
    requires HeadOpen(rows, forbidden, start, head, found, queue, done, 0)
    ensures seen' == found'.Keys && KeepsFound(found, found')
    ensures HeadOpen(rows, forbidden, start, head, found', queue', done, 4)
    ensures ExpandedTo(rows, forbidden, found', head.state, 4)
  {
    queue', seen', found' := queue, seen, found;
    for d := 0 to 4
      invariant seen' == found'.Keys && KeepsFound(found, found')
      invariant HeadOpen(rows, forbidden, start, head, found', queue', done, d)
      invariant ExpandedTo(rows, forbidden, found', head.state, d)
    {
      ghost var before := found';
      queue', seen', found' := TryMove(rows, forbidden, start, head, queue', seen', found', done, d);
      KeepsTransitive(found, before, found');
      ExpandedStays(rows, forbidden, before, found', head.state, d);
      OneMoreExpanded(rows, forbidden, found', head.state, d);
    }
  }

  lemma SeenIsNoWorse(rows: Grid, forbidden: Edges, start: Pos, head: Entry, found: Found, queue: seq<Entry>,
                      done: set<State>, t: State, d: nat)
    requires d < 4 && t in found && HeadOpen(rows, forbidden, start, head, found, queue, done, d)
    ensures AtMost(found[t], head.path + [Neighbor(head.path[|head.path| - 1], d)])
  {
    if t in done || t == head.state {
    } else {
      var i :| 0 <= i < |queue| && queue[i].state == t;
      ChildInOrder(head.path, queue, d, i);
    }
  }

  method Enqueue(ghost rows: Grid, ghost forbidden: Edges, ghost start: Pos, ghost head: Entry, ghost found: Found,
                 queue: seq<Entry>, seen: set<State>, ghost done: set<State>, child: Entry, ghost d: nat)
    returns (ghost found': Found, queue': seq<Entry>, seen': set<State>)
    requires d < 4 && seen == found.Keys && child.state !in found
    requires HeadOpen(rows, forbidden, start, head, found, queue, done, d)
    requires child.path == head.path + [Neighbor(head.path[|head.path| - 1], d)]
    requires LegalWalk(rows, forbidden, start, child.path) && StateOf(rows, child.path) == child.state
    ensures found' == found[child.state := child.path] && queue' == queue + [child] && seen' == seen + {child.state}
    ensures HeadOpen(rows, forbidden, start, head, found', queue', done, d + 1)
  {
    found', queue', seen' := found[child.state := child.path], queue + [child], seen + {child.state};
    ChildSearches(rows, forbidden, start, head, found, queue, done, child, d);
    ChildAccounted(found, queue, done, head.state, child);
  }

  lemma ChildSearches(rows: Grid, forbidden: Edges, start: Pos, head: Entry, found: Found, queue: seq<Entry>,
                      done: set<State>, child: Entry, d: nat)
    requires d < 4 && child.state !in found && HeadOpen(rows, forbidden, start, head, found, queue, done, d)
    requires child.path == head.path + [Neighbor(head.path[|head.path| - 1], d)]
    requires LegalWalk(rows, forbidden, start, child.path) && StateOf(rows, child.path) == child.state
    ensures Searching(rows, forbidden, start, found[child.state := child.path], queue + [child], done)
    ensures AfterHead(head.path, queue + [child], d + 1)
  {
    var queue' := queue + [child];
    assert queue'[|queue|] == child && child.path[..|head.path|] == head.path;
    assert forall i :: 0 <= i < |queue| ==> queue'[i] == queue[i];
    forall i, j | 0 <= i < j < |queue'| ensures InOrder(queue'[i].path, queue'[j].path) {
      if j == |queue| { ChildInOrder(head.path, queue, d, i); }
    }
  }

  lemma ChildAccounted(found: Found, queue: seq<Entry>, done: set<State>, head: State, child: Entry)
    requires AccountedBut(found, queue, done, head)
    ensures AccountedBut(found[child.state := child.path], queue + [child], done, head)
  {
    var queue' := queue + [child];
    assert queue'[|queue|] == child;
    forall s | s in found && s != child.state && s != head && s !in done
      ensures exists i :: 0 <= i < |queue'| && queue'[i].state == s
    {
      var i :| 0 <= i < |queue| && queue[i].state == s;
      assert queue'[i].state == s;
    }
  }

  // ---------- How many states there are ----------

  const ALL_BADGES: set<Badges> := {0, 1, 2, 3, 4, 5, 6, 7, 8, 9, 10, 11, 12, 13, 14, 15}

  lemma {:induction false} BadgeStates(states: set<State>, values: set<Badges>)
    requires forall s, t :: s in states && t in states ==> s.pos == t.pos
    requires forall s :: s in states ==> s.badges in values
    ensures |states| <= |values|
  {
    if s :| s in states {
      BadgeStates(states - {s}, values - {s.badges});
    }
  }

  lemma SixteenBadges()
    ensures |ALL_BADGES| == 16
  {
  }

  lemma BadgeKnown(b: Badges)
    ensures b in ALL_BADGES
  {
  }

  lemma CellStates(states: set<State>)
    requires forall s, t :: s in states && t in states ==> s.pos == t.pos
    ensures |states| <= 16
  {
    forall s | s in states ensures s.badges in ALL_BADGES { BadgeKnown(s.badges); }
    BadgeStates(states, ALL_BADGES);
    SixteenBadges();
  }

  lemma {:induction false} RowStates(states: set<State>, columns: nat)
    requires forall s, t :: s in states && t in states ==> s.pos.r == t.pos.r
    requires forall s :: s in states ==> 0 <= s.pos.c < columns
    ensures |states| <= columns * 16
  {
    if columns == 0 {
      assert states == {};
    } else {
      var last := set s | s in states && s.pos.c == columns - 1;
      RowStates(states - last, columns - 1);
      CellStates(last);
      assert |states| == |states - last| + |last|;
    }
  }

  /** There are rows x columns x 16 states. */
  lemma {:induction false} GridStates(states: set<State>, rows: nat, columns: nat)
    requires forall s :: s in states ==> 0 <= s.pos.r < rows && 0 <= s.pos.c < columns
    ensures |states| <= rows * columns * 16
  {
    if rows == 0 {
      assert states == {};
    } else {
      var last := set s | s in states && s.pos.r == rows - 1;
      GridStates(states - last, rows - 1, columns);
      RowStates(last, columns);
      assert |states| == |states - last| + |last|;
      assert rows * columns * 16 == (rows - 1) * columns * 16 + columns * 16;
    }
  }

  lemma DoneStates(rows: Grid, forbidden: Edges, start: Pos, found: Found, queue: seq<Entry>, done: set<State>)
    requires Rectangular(rows) && Searching(rows, forbidden, start, found, queue, done)
    ensures |found| <= |rows| * |rows[0]| * 16
  {
    forall s | s in found ensures 0 <= s.pos.r < |rows| && 0 <= s.pos.c < |rows[0]| {
      assert StateOf(rows, found[s]) == s && LegalWalk(rows, forbidden, start, found[s]);
    }
    GridStates(found.Keys, |rows|, |rows[0]|);
    assert |found| == |found.Keys|;
  }

  // ---------- The method ----------

  lemma StartState(rows: Grid, start: Pos)
    requires Inside(rows, start) && Tile(rows, start) == 'S'
    ensures StateOf(rows, [start]) == State(start, 0)
  {
    var path := [start];
    assert path[..|path| - 1] == [];
    assert BadgesOn(rows, path) == Collect(Tile(rows, start), BadgesOn(rows, []));
  }

  lemma PoppedOpens(rows: Grid, forbidden: Edges, start: Pos, found: Found, queue: seq<Entry>, done: set<State>)
    requires |queue| > 0 && Searching(rows, forbidden, start, found, queue, done) && Accounted(found, queue, done)
    ensures HeadOpen(rows, forbidden, start, queue[0], found, queue[1..], done, 0)
  {
    var head, rest := queue[0], queue[1..];
    forall s | s in found ensures s == head.state || s in done || exists i :: 0 <= i < |rest| && rest[i].state == s {
      if s !in done {
        var i :| 0 <= i < |queue| && queue[i].state == s;
        if i > 0 { assert rest[i - 1].state == s; }
      }
    }
    forall i | 0 <= i < |rest| ensures InOrder(head.path, rest[i].path) {
      assert rest[i] == queue[i + 1];
    }
    assert |head.path| > 0 by { assert LegalWalk(rows, forbidden, start, found[head.state]); }
  }

  lemma StartSound(rows: Grid, forbidden: Edges, start: Pos, end: Pos)
    requires Rectangular(rows) && Inside(rows, start) && Tile(rows, start) == 'S'
    ensures Sound(rows, forbidden, start, end, map[State(start, 0) := [start]], [Entry(State(start, 0), [start])], {})
  {
    StartState(rows, start);
    assert [Entry(State(start, 0), [start])][0].state == State(start, 0);
  }

  lemma HeadCloses(rows: Grid, forbidden: Edges, start: Pos, end: Pos, head: Entry, before: Found, found: Found,
                   queue: seq<Entry>, done: set<State>)
    requires Rectangular(rows) && HeadOpen(rows, forbidden, start, head, found, queue, done, 4) &&
             KeepsFound(before, found)
    requires done <= before.Keys && AllExpanded(rows, forbidden, end, before, done) && head.state.pos != end
    requires State(start, 0) in before && before[State(start, 0)] == [start]
    requires ExpandedTo(rows, forbidden, found, head.state, 4)
    ensures Sound(rows, forbidden, start, end, found, queue, done + {head.state})
  {
    var done' := done + {head.state};
    forall i | 0 <= i < |queue| ensures queue[i].state != head.state && |head.path| <= |queue[i].path| {
      if queue[i].path == head.path { assert false; }
    }
    forall s | s in done' ensures s.pos != end && forall d: nat :: d < 4 ==> Expanded(rows, forbidden, found, s, d) {
      if s in done { ExpandedStays(rows, forbidden, before, found, s, 4); }
    }
  }

  lemma RoundsBounded(rows: Grid, forbidden: Edges, start: Pos, found: Found, queue: seq<Entry>, done: set<State>)
    requires Rectangular(rows) && Searching(rows, forbidden, start, found, queue, done)
    ensures |done| <= |rows| * |rows[0]| * 16
  {
    DoneStates(rows, forbidden, start, found, queue, done);
    SubsetSize(done, found.Keys);
  }

  lemma RoundLeft(rows: Grid, forbidden: Edges, start: Pos, found: Found, queue: seq<Entry>, done: set<State>)
    requires Rectangular(rows) && |queue| > 0 && Searching(rows, forbidden, start, found, queue, done)
    ensures |done + {queue[0].state}| == |done| + 1 <= |rows| * |rows[0]| * 16
  {
    DoneStates(rows, forbidden, start, found, queue, done);
    SubsetSize(done + {queue[0].state}, found.Keys);
  }

  lemma BestAtExit(rows: Grid, forbidden: Edges, start: Pos, end: Pos, found: Found, queue: seq<Entry>,
                   done: set<State>)
    requires Sound(rows, forbidden, start, end, found, queue, done) && |queue| > 0 && queue[0].state.pos == end
    ensures LegalRoute(rows, forbidden, start, end, queue[0].path)
    ensures forall p :: LegalRoute(rows, forbidden, start, end, p) ==> AtMost(queue[0].path, p)
  {
    forall p | LegalRoute(rows, forbidden, start, end, p) ensures AtMost(queue[0].path, p) {
      HeadIsBest(rows, forbidden, start, end, found, queue, done, p);
    }
  }

  lemma NoneWhenEmpty(rows: Grid, forbidden: Edges, start: Pos, end: Pos, found: Found, done: set<State>)
    requires Sound(rows, forbidden, start, end, found, [], done)
    ensures forall p :: !LegalRoute(rows, forbidden, start, end, p)
  {
    forall p ensures !LegalRoute(rows, forbidden, start, end, p) {
      if LegalRoute(rows, forbidden, start, end, p) { HeadIsBest(rows, forbidden, start, end, found, [], done, p); }
    }
  }

  /** `shortest_route`: an error for an invalid grid, else None exactly when no legal route exists,
      else the legal route that is shortest and, among the shortest, first in U, R, D, L order.
      `pops` counts the rounds of the outer loop. */
  method ShortestRoute(rows: Grid, forbidden: Edges) returns (r: Result<Option<Path>, ()>, ghost pops: nat)
    ensures r.Err? <==> !ValidGrid(rows)
    ensures r.Ok? ==> var (start, end) := Endpoints(rows).value;
              && (r.value.Some? ==> LegalRoute(rows, forbidden, start, end, r.value.value))
              && (r.value.Some? ==> forall p :: LegalRoute(rows, forbidden, start, end, p) ==> AtMost(r.value.value, p))
              && (r.value.None? ==> forall p :: !LegalRoute(rows, forbidden, start, end, p))
    ensures r.Ok? ==> pops <= |rows| * |rows[0]| * 16
  {
    pops := 0;
    var ends := Endpoints(rows);
    if ends.None? { return Err(()), 0; }
    var (start, end) := ends.value;
    var first := State(start, 0);
    var queue := [Entry(first, [start])];
    var seen := {first};
    ghost var found: Found := map[first := [start]];
    ghost var done: set<State> := {};
    StartSound(rows, forbidden, start, end);
    while queue != []
      invariant seen == found.Keys && |done| == pops
      invariant Sound(rows, forbidden, start, end, found, queue, done)
      decreases |rows| * |rows[0]| * 16 - |done|
    {
      var head := queue[0];
      PoppedOpens(rows, forbidden, start, found, queue, done);
      RoundLeft(rows, forbidden, start, found, queue, done);
      pops := pops + 1;
      if head.state.pos == end {
        BestAtExit(rows, forbidden, start, end, found, queue, done);
        return Ok(Some(head.path)), pops;
      }
      ghost var before := found;
      queue, seen, found := Expand(rows, forbidden, start, head, queue[1..], seen, found, done);
      HeadCloses(rows, forbidden, start, end, head, before, found, queue, done);
      done := done + {head.state};
    }
    RoundsBounded(rows, forbidden, start, found, queue, done);
    NoneWhenEmpty(rows, forbidden, start, end, found, done);
    return Ok(None), pops;
  }

  lemma TurnsAsymmetric(a: Path, b: Path, j: nat, k: nat)
    requires TurnsAt(a, b, j)
    ensures !TurnsAt(b, a, k)
  {
    assert k < j ==> a[k] == b[k];
  }

  /** The contract has one answer: no two different routes are each at most the other. */
  lemma BestRouteIsUnique(a: Path, b: Path)
    requires AtMost(a, b) && AtMost(b, a)
    ensures a == b
  {
    if TurnsBefore(a, b) {
      var j: nat :| TurnsAt(a, b, j);
      forall k: nat ensures !TurnsAt(b, a, k) {
        TurnsAsymmetric(a, b, j, k);
      }
    }
  }
}
