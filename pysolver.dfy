/**
 * The Python bidirectional breadth-first search (src/app.py:350-436): one
 * search grows from the cube to solve, the other from the solved cube, one
 * level each per round, until a newly reached state is already known to the
 * other side.
 *
 * Each side keeps a table from packed state to the path that reaches it from
 * that side's origin, and a queue of states whose neighbours are still to be
 * tried. Moves are enumerated as `get_possible_moves` lists them; the one
 * on the face turned last is skipped.
 */
module PySolver {
  import opened Results
  import opened Facelets
  import opened Moves
  import opened Packing
  import opened PyCube
  import opened PySimplify

  /**
   * Every stored path, replayed from the origin, reaches its key; keys are
   * 72-bit states, no path turns the same face twice in a row, and no path
   * is longer than `maxLen`.
   */
  ghost predicate PathTable(origin: nat, table: map<nat, seq<Move>>, maxLen: nat)
  {
    forall k :: k in table ==>
      && k < STATE_BOUND
      && PackedApplySeq(origin, table[k]) == k
      && NoRepeatedFace(table[k])
      && |table[k]| <= maxLen
  }

  /** Every queued state is in the table. */
  ghost predicate Queued(queue: seq<nat>, table: map<nat, seq<Move>>)
  {
    forall i :: 0 <= i < |queue| ==> queue[i] in table
  }

  /** `table2` keeps every entry of `table1`. */
  ghost predicate Extends(table1: map<nat, seq<Move>>, table2: map<nat, seq<Move>>)
  {
    forall k :: k in table1 ==> k in table2 && table2[k] == table1[k]
  }

  /** `curr_cube.apply_move(move).state`: the state one move away. */
  method Neighbour(curr: nat, move: Move) returns (next: nat)
    ensures next == PackedApply(curr, move)
  {
    ApplyMoveToken(Cube(curr), move);
    next := ApplyMove(Cube(curr), Token(move)).value.state;
  }

  /** A table holding only the origin, with the empty path, is valid at any length. */
  lemma PathTableRoot(origin: nat, maxLen: nat)
    requires origin < STATE_BOUND
    ensures PathTable(origin, map[origin := []], maxLen) && Queued([origin], map[origin := []])
  {
  }

  /**
   * A stored path extended by a move on another face reaches the turned
   * state, still avoids repeating a face and is one move longer.
   */
  lemma ExtendPath(origin: nat, path: seq<Move>, curr: nat, move: Move, len: nat)
    requires curr < STATE_BOUND && PackedApplySeq(origin, path) == curr
    requires NoRepeatedFace(path) && |path| <= len
    requires path == [] || move.face != path[|path| - 1].face
    ensures PackedApply(curr, move) < STATE_BOUND
    ensures PackedApplySeq(origin, path + [move]) == PackedApply(curr, move)
    ensures NoRepeatedFace(path + [move]) && |path + [move]| <= len + 1
  {
    var newPath := path + [move];
    PackedApplySeqSnoc(origin, path, move);
    QuarterTurnsBound(curr, move.face, Turns(move.suffix));
    assert forall j :: 0 <= j < |path| ==> newPath[j] == path[j];
  }

  /**
   * Recording a new state with a path that reaches it, and queueing it,
   * keeps the table's paths valid, every queued state known, and the
   * earlier entries and queue as they were.
   */
  lemma Record(origin: nat, table: map<nat, seq<Move>>, queue: seq<nat>,
               table': map<nat, seq<Move>>, queue': seq<nat>, next: nat, path: seq<Move>, maxLen: nat)
    requires PathTable(origin, table', maxLen) && Queued(queue', table')
    requires Extends(table, table') && |queue'| >= |queue| && queue'[..|queue|] == queue
    requires next !in table' && next < STATE_BOUND && PackedApplySeq(origin, path) == next
    requires NoRepeatedFace(path) && |path| <= maxLen
    ensures PathTable(origin, table'[next := path], maxLen) && Queued(queue' + [next], table'[next := path])
    ensures Extends(table, table'[next := path]) && (queue' + [next])[..|queue|] == queue
  {
    assert (queue' + [next])[..|queue|] == queue'[..|queue|];
  }

  /** A newly reached state that the other side already knows, with the path that reached it. */
  datatype Meeting = Meeting(state: nat, path: seq<Move>)

  /**
   * Tries every move from `curr` (src/app.py:399-414): a state not yet in the
   * table is either a meeting with the other side, which ends the search, or
   * is recorded with its path and queued.
   */
  method ExpandState(origin: nat, curr: nat, table: map<nat, seq<Move>>, queue: seq<nat>,
                     other: map<nat, seq<Move>>, ghost len: nat)
    returns (table': map<nat, seq<Move>>, queue': seq<nat>, meet: Option<Meeting>)
    requires curr in table && |table[curr]| <= len
    requires PathTable(origin, table, len + 1) && Queued(queue, table)
    ensures PathTable(origin, table', len + 1) && Queued(queue', table')
    ensures Extends(table, table') && |queue'| >= |queue| && queue'[..|queue|] == queue
    ensures meet.Some? ==>
      && meet.value.state in other
      && meet.value.state < STATE_BOUND
      && PackedApplySeq(origin, meet.value.path) == meet.value.state
      && NoRepeatedFace(meet.value.path)
      && |meet.value.path| <= len + 1
  {
    table', queue' := table, queue;
    var path := table[curr];
    var moves := PossibleMoves();
    for i := 0 to |moves|
      invariant PathTable(origin, table', len + 1) && Queued(queue', table')
      invariant Extends(table, table') && |queue'| >= |queue| && queue'[..|queue|] == queue
    {
      var move := moves[i];
      if path != [] && move.face == path[|path| - 1].face {
        continue;
      }
      var next := Neighbour(curr, move);
      if next !in table' {
        var newPath := path + [move];
        ExtendPath(origin, path, curr, move, len);
        if next in other {
          return table', queue', Some(Meeting(next, newPath));
        }
        Record(origin, table, queue, table', queue', next, newPath, len + 1);
        table' := table'[next := newPath];
        queue' := queue' + [next];
      }
    }
    meet := None;
  }

  /**
   * One level of one side (src/app.py:397-414 and 417-434): the states queued
   * when the level starts are taken from the front of the queue and expanded.
   */
  method ExpandLevel(origin: nat, table: map<nat, seq<Move>>, queue: seq<nat>,
                     other: map<nat, seq<Move>>, ghost depth: nat)
    returns (table': map<nat, seq<Move>>, queue': seq<nat>, meet: Option<Meeting>)
    requires PathTable(origin, table, depth) && Queued(queue, table)
    ensures PathTable(origin, table', depth + 1) && Queued(queue', table')
    ensures meet.Some? ==>
      && meet.value.state in other
      && meet.value.state < STATE_BOUND
      && PackedApplySeq(origin, meet.value.path) == meet.value.state
      && NoRepeatedFace(meet.value.path)
      && |meet.value.path| <= depth + 1
  {
    table', queue' := table, queue;
    var n := |queue|;
    for j := 0 to n
      invariant PathTable(origin, table', depth + 1) && Queued(queue', table')
      invariant |queue'| >= n - j
      invariant forall i :: 0 <= i < n - j ==> |table'[queue'[i]]| <= depth
    {
      var curr := queue'[0];
      queue' := queue'[1..];
      var oldQueue := queue';
      table', queue', meet := ExpandState(origin, curr, table', queue', other, depth);
      if meet.Some? {
        return;
      }
      assert forall i :: 0 <= i < n - j - 1 ==> queue'[i] == oldQueue[i];
    }
    meet := None;
  }

  /**
   * `_solve_cube_python`: `None` when no meeting happens within
   * `max_depth // 2 + 1` rounds; otherwise the forward path, then the inverse
   * of the backward path, merged by `simplify_moves`.
   */
  method SolvePython(initial: Cube, maxDepth: int) returns (r: Option<seq<Move>>)
    requires initial.state < STATE_BOUND
    ensures IsSolved(initial) ==> r == Some([])
    ensures maxDepth < 0 && !IsSolved(initial) ==> r.None?
    ensures r.Some? ==> PackedApplySeq(initial.state, r.value) == SolvedStateInt()
    ensures r.Some? ==> NoRepeatedFace(r.value)
    ensures r.Some? && !IsSolved(initial) ==> |r.value| <= 2 * (maxDepth / 2) + 2
  {
    if IsSolved(initial) {
      return Some([]);
    }
    var solved := SolvedCube();
    var fwdVisited: map<nat, seq<Move>> := map[initial.state := []];
    var fwdQueue: seq<nat> := [initial.state];
    var bwdVisited: map<nat, seq<Move>> := map[solved.state := []];
    var bwdQueue: seq<nat> := [solved.state];
    var rounds := maxDepth / 2 + 1;
    var depth := 0;
    PathTableRoot(initial.state, 0);
    PathTableRoot(solved.state, 0);
    while depth < rounds
      invariant 0 <= depth
      invariant PathTable(initial.state, fwdVisited, depth) && Queued(fwdQueue, fwdVisited)
      invariant PathTable(solved.state, bwdVisited, depth) && Queued(bwdQueue, bwdVisited)
    {
      var meet;
      fwdVisited, fwdQueue, meet := ExpandLevel(initial.state, fwdVisited, fwdQueue, bwdVisited, depth);
      if meet.Some? {
        var bwdPath := bwdVisited[meet.value.state];
        var full := meet.value.path + InvertPath(bwdPath);
        PackedApplySeqAppend(initial.state, meet.value.path, InvertPath(bwdPath));
        PackedUndoPath(solved.state, bwdPath);
        var res := SimplifyMoves(full);
        PackedSimplifiedEffect(initial.state, full);
        return Some(res);
      }
      bwdVisited, bwdQueue, meet := ExpandLevel(solved.state, bwdVisited, bwdQueue, fwdVisited, depth);
      if meet.Some? {
        var fwdPath := fwdVisited[meet.value.state];
        var full := fwdPath + InvertPath(meet.value.path);
        PackedApplySeqAppend(initial.state, fwdPath, InvertPath(meet.value.path));
        PackedUndoPath(solved.state, meet.value.path);
        var res := SimplifyMoves(full);
        PackedSimplifiedEffect(initial.state, full);
        return Some(res);
      }
      depth := depth + 1;
    }
    return None;
  }
}
