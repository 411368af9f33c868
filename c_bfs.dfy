/**
 * The C solver's breadth-first search (src/solver.c:264-376): nodes are
 * appended to one queue with the index of the node they came from, level by
 * level, until a newly visited state is solved or the depth limit is passed;
 * the answer is read back by following parent indices from the solved node.
 */
module CBfs {
  import opened Results
  import opened Facelets
  import opened Moves
  import opened CCube
  import opened CVisited
  import opened CQueue

  /** `MOVES`: the nine tokens, in the order they are tried. */
  function MovesTable(): (ts: seq<string>)
    ensures ts == ["R", "R'", "R2", "U", "U'", "U2", "F", "F'", "F2"]
  {
    PossibleTokensSpelled();
    PossibleTokens()
  }

  /** What `solve_bfs` reports. */
  datatype BfsOutcome =
    | AlreadySolved            // "Already Solved!"
    | Solution(moves: seq<string>)   // "Solution (n moves):" and the tokens
    | NoSolution               // "No solution found."

  /**
   * Node `i` was reached from an earlier node by one of the nine tokens, and
   * lies one level below it.
   */
  ghost predicate Linked(nodes: seq<BFSNode>, levels: seq<nat>, i: nat)
    requires i < |nodes| == |levels|
    requires forall j :: 0 <= j < |nodes| ==> |nodes[j].state| == NUM_STICKERS
  {
    var n := nodes[i];
    && 0 <= n.parentIdx < i
    && n.moveFromParent.Some? && n.moveFromParent.value in PossibleTokens()
    && n.state == CMove(nodes[n.parentIdx].state, n.moveFromParent.value)
    && levels[i] == levels[n.parentIdx] + 1
  }

  /**
   * The queue's nodes form a tree rooted at the initial state: the root has
   * parent -1 and no move, every other node is linked to an earlier one.
   */
  ghost predicate Chain(nodes: seq<BFSNode>, initial: seq<uint8>, levels: seq<nat>)
  {
    && |nodes| >= 1 && |levels| == |nodes|
    && (forall j :: 0 <= j < |nodes| ==> |nodes[j].state| == NUM_STICKERS)
    && nodes[0] == BFSNode(initial, -1, None) && levels[0] == 0
    && (forall i :: 1 <= i < |nodes| ==> Linked(nodes, levels, i))
  }

  function Max0(n: int): nat
  {
    if n > 0 then n else 0
  }

  /**
   * The search loop of `solve_bfs` (src/solver.c:303-349). The nodes of level
   * `depth` are taken from the front while new states are appended; when
   * the head passes the end of the level, the next level starts, and the
   * search stops once the level number exceeds `maxDepth`.
   */
  method Search(initial: seq<uint8>, maxDepth: int, visited: VisitedTable)
    returns (q: BFSQueue, solutionIdx: int, ghost levels: seq<nat>)
    requires |initial| == NUM_STICKERS && visited.Valid()
    modifies visited.entries
    ensures visited.Valid() && fresh(q) && q.Valid()
    ensures Chain(q.queue[..q.tail], initial, levels)
    ensures solutionIdx != -1 ==>
      && 0 < solutionIdx < q.tail
      && IsSolved(q.queue[solutionIdx].state)
      && levels[solutionIdx] <= Max0(maxDepth) + 1
  {
    visited.Clear();
    q := new BFSQueue(100000);
    q.Enqueue(initial, -1, None);
    var _ := visited.MarkVisited(initial);
    levels := [0];

    var depth := 0;
    var nextDepthNodeIdx := 1;
    solutionIdx := -1;
    while q.head < q.tail && solutionIdx == -1
      invariant fresh(q) && fresh(q.queue) && q.Valid() && visited.Valid()
      invariant Chain(q.queue[..q.tail], initial, levels)
      invariant 0 <= depth <= Max0(maxDepth)
      invariant 1 <= nextDepthNodeIdx <= q.tail
      invariant Levelled(levels, nextDepthNodeIdx, q.tail, depth)
      invariant solutionIdx != -1 ==>
        0 < solutionIdx < q.tail && IsSolved(q.queue[solutionIdx].state) && levels[solutionIdx] <= depth + 1
      decreases (if depth <= maxDepth then maxDepth - depth + 1 else 0),
        (if nextDepthNodeIdx > q.head then nextDepthNodeIdx - q.head else 0)
    {
      if q.head >= nextDepthNodeIdx {
        LevelledNext(levels, nextDepthNodeIdx, q.tail, depth);
        depth := depth + 1;
        nextDepthNodeIdx := q.tail;
        if depth > maxDepth {
          break;
        }
      }
      // `current` is a copy of the node: an append below may move the array
      var current := q.queue[q.head];
      q.head := q.head + 1;
      solutionIdx, levels := ExpandNode(q, visited, current, initial, levels, depth, nextDepthNodeIdx);
    }
  }

  /**
   * The state a token is applied to in the move loop as the code is written:
   * `current` points into the node buffer (src/solver.c:331), and once an
   * `enqueue` has moved that buffer with `realloc` (src/solver.c:288) the
   * remaining tokens read the freed block, whose contents are `freed` here.
   */
  function StaleChild(parentState: seq<uint8>, moved: bool, freed: seq<uint8>, move: string): (r: seq<uint8>)
    requires |parentState| == NUM_STICKERS && |freed| == NUM_STICKERS
    ensures |r| == NUM_STICKERS
    ensures !moved ==> r == CMove(parentState, move)
  {
    CMove(if moved then freed else parentState, move)
  }

  /** Once the buffer has moved, the child need not be a move of its parent. */
  lemma StaleChildDiffers()
    ensures var p, f := seq(NUM_STICKERS, _ => 0 as uint8), seq(NUM_STICKERS, _ => 1 as uint8);
      StaleChild(p, true, f, "R") != CMove(p, "R")
  {
    var p, f := seq(NUM_STICKERS, _ => 0 as uint8), seq(NUM_STICKERS, _ => 1 as uint8);
    CMoveKeepsColours(p, "R");
    CMoveKeepsColours(f, "R");
    assert p[0] in multiset(p);
    assert 0 as uint8 !in multiset(f);
  }

  /**
   * The move loop of `solve_bfs` (src/solver.c:334-348): the node just taken
   * from the queue is turned by each of the nine tokens; a state the visited
   * set had not seen is appended with the node as its parent, and a solved
   * one ends the loop with its index.
   */
  method ExpandNode(q: BFSQueue, visited: VisitedTable, current: BFSNode,
                    ghost initial: seq<uint8>, ghost levels: seq<nat>, ghost depth: nat, ghost nextDepthNodeIdx: nat)
    returns (solutionIdx: int, ghost levels': seq<nat>)
    requires q.Valid() && visited.Valid() && Chain(q.queue[..q.tail], initial, levels)
    requires 1 <= q.head && q.head - 1 < nextDepthNodeIdx <= q.tail && current == q.queue[q.head - 1]
    requires Levelled(levels, nextDepthNodeIdx, q.tail, depth)
    modifies q, q.queue, visited.entries
    ensures q.Valid() && visited.Valid() && Chain(q.queue[..q.tail], initial, levels')
    ensures q.head == old(q.head) && old(q.tail) <= q.tail && (q.queue == old(q.queue) || fresh(q.queue))
    ensures Levelled(levels', nextDepthNodeIdx, q.tail, depth)
    ensures solutionIdx != -1 ==>
      0 < solutionIdx < q.tail && IsSolved(q.queue[solutionIdx].state) && levels'[solutionIdx] <= depth + 1
  {
    ghost var nodes := q.queue[..q.tail];
    ghost var parent := q.head - 1;
    levels' := levels;
    solutionIdx := -1;
    PossibleTokensSpelled();
    var i := 0;
    while i < NUM_MOVES && solutionIdx == -1
      invariant i <= NUM_MOVES
      invariant q.Valid() && visited.Valid() && q.queue[..q.tail] == nodes && Chain(nodes, initial, levels')
      invariant q.head == old(q.head) && old(q.tail) <= q.tail && (q.queue == old(q.queue) || fresh(q.queue))
      invariant parent < |nodes| && current == nodes[parent]
      invariant Levelled(levels', nextDepthNodeIdx, q.tail, depth)
      invariant solutionIdx != -1 ==>
        0 < solutionIdx < |nodes| && IsSolved(nodes[solutionIdx].state) && levels'[solutionIdx] <= depth + 1
    {
      var move := MovesTable()[i];
      var solved;
      ghost var added, next;
      solved, added, next := TryMove(q, visited, current, move);
      if added {
        ChainSnoc(nodes, initial, levels', parent, move, next);
        LevelledSnoc(levels', nextDepthNodeIdx, |nodes|, depth, parent);
        nodes := nodes + [BFSNode(next, parent, Some(move))];
        levels' := levels' + [levels'[parent] + 1];
      }
      if solved {
        solutionIdx := q.tail - 1;
      }
      i := i + 1;
    }
  }

  /**
   * One pass of the move loop: the successor of `current` by `move` is
   * computed and offered to the visited set and the queue.
   */
  method TryMove(q: BFSQueue, visited: VisitedTable, current: BFSNode, move: string)
    returns (solved: bool, ghost added: bool, ghost next: seq<uint8>)
    requires q.Valid() && visited.Valid() && 1 <= q.head && |current.state| == NUM_STICKERS
    requires move in PossibleTokens()
    modifies q, q.queue, visited.entries
    ensures q.Valid() && visited.Valid()
    ensures q.head == old(q.head) && (q.queue == old(q.queue) || fresh(q.queue))
    ensures next == CMove(current.state, move)
    ensures added ==> q.queue[..q.tail] == old(q.queue[..q.tail]) + [BFSNode(next, q.head - 1, Some(move))]
    ensures !added ==> q.tail == old(q.tail) && q.queue[..q.tail] == old(q.queue[..q.tail])
    ensures solved ==> added && IsSolved(next)
  {
    var k :| 0 <= k < 9 && PossibleTokens()[k] == move;
    TokenNoNul(PossibleMoves()[k]);
    var successor := ApplyMove(current.state, move);
    next := successor;
    solved, added := Visit(q, visited, successor, move);
  }

  /**
   * A successor the visited set had not seen is marked, appended with the
   * node before the head as its parent, and checked for being solved; one
   * it had seen, or any state once the table is full, is dropped.
   */
  method Visit(q: BFSQueue, visited: VisitedTable, next: seq<uint8>, move: string)
    returns (solved: bool, ghost added: bool)
    requires q.Valid() && visited.Valid() && 1 <= q.head && |next| == NUM_STICKERS
    modifies q, q.queue, visited.entries
    ensures q.Valid() && visited.Valid()
    ensures q.head == old(q.head) && (q.queue == old(q.queue) || fresh(q.queue))
    ensures added ==> next !in old(visited.Contents()) && visited.Contents() == old(visited.Contents()) + {next}
    ensures !added ==> next in old(visited.Contents()) || old(visited.Full())
    ensures added ==> q.queue[..q.tail] == old(q.queue[..q.tail]) + [BFSNode(next, q.head - 1, Some(move))]
    ensures !added ==> q.tail == old(q.tail) && q.queue[..q.tail] == old(q.queue[..q.tail])
    ensures solved <==> added && IsSolved(next)
  {
    var isNew := visited.MarkVisited(next);
    solved, added := false, isNew;
    if isNew {
      solved := IsSolved(next);
      q.Enqueue(next, q.head - 1, Some(move));
    }
  }

  const NUM_MOVES: nat := 9

  /**
   * Nodes before `nextDepthNodeIdx` lie at most `depth` levels below the
   * root, the later ones at most one level more.
   */
  ghost predicate Levelled(levels: seq<nat>, nextDepthNodeIdx: nat, tail: nat, depth: nat)
  {
    && nextDepthNodeIdx <= tail <= |levels|
    && (forall i :: 0 <= i < nextDepthNodeIdx ==> levels[i] <= depth)
    && (forall i :: nextDepthNodeIdx <= i < tail ==> levels[i] <= depth + 1)
  }

  /** A child of a node of the current level lies at most one level further. */
  lemma LevelledSnoc(levels: seq<nat>, nextDepthNodeIdx: nat, tail: nat, depth: nat, parent: nat)
    requires Levelled(levels, nextDepthNodeIdx, tail, depth) && |levels| == tail && parent < nextDepthNodeIdx
    ensures Levelled(levels + [levels[parent] + 1], nextDepthNodeIdx, tail + 1, depth)
  {
  }

  /** Starting the next level at the tail keeps the bound one level further down. */
  lemma LevelledNext(levels: seq<nat>, nextDepthNodeIdx: nat, tail: nat, depth: nat)
    requires Levelled(levels, nextDepthNodeIdx, tail, depth)
    ensures Levelled(levels, tail, tail, depth + 1)
  {
  }

  /** Appending a node reached from an earlier one by a token keeps the tree. */
  lemma ChainSnoc(nodes: seq<BFSNode>, initial: seq<uint8>, levels: seq<nat>, parent: nat, t: string, next: seq<uint8>)
    requires Chain(nodes, initial, levels) && parent < |nodes| && t in PossibleTokens()
    requires next == CMove(nodes[parent].state, t)
    ensures Chain(nodes + [BFSNode(next, parent, Some(t))], initial, levels + [levels[parent] + 1])
  {
    var nodes' := nodes + [BFSNode(next, parent, Some(t))];
    var levels' := levels + [levels[parent] + 1];
    assert forall j :: 0 <= j < |nodes'| ==> |nodes'[j].state| == NUM_STICKERS;
    forall i | 1 <= i < |nodes'|
      ensures Linked(nodes', levels', i)
    {
      if i < |nodes| {
        assert Linked(nodes, levels, i);
      }
    }
  }

  /** In the tree only the root lacks a parent. */
  lemma RootStep(nodes: seq<BFSNode>, initial: seq<uint8>, levels: seq<nat>, idx: nat)
    requires Chain(nodes, initial, levels) && idx < |nodes|
    ensures idx == 0 <==> nodes[idx].parentIdx == -1
  {
    if idx != 0 {
      assert Linked(nodes, levels, idx);
    }
  }

  /** A node other than the root names an earlier parent, a token, and lies one level below its parent. */
  lemma ParentStep(nodes: seq<BFSNode>, initial: seq<uint8>, levels: seq<nat>, idx: nat)
    requires Chain(nodes, initial, levels) && 0 < idx < |nodes|
    ensures 0 <= nodes[idx].parentIdx < idx
    ensures nodes[idx].moveFromParent.Some? && nodes[idx].moveFromParent.value in PossibleTokens()
    ensures levels[idx] == levels[nodes[idx].parentIdx] + 1
  {
    assert Linked(nodes, levels, idx);
  }

  /** Replaying a node's token from its parent, then any suffix, is replaying the suffix from the node. */
  lemma ReplayStep(nodes: seq<BFSNode>, initial: seq<uint8>, levels: seq<nat>, idx: nat, suffix: seq<string>)
    requires Chain(nodes, initial, levels) && 0 < idx < |nodes|
    ensures 0 <= nodes[idx].parentIdx < idx && nodes[idx].moveFromParent.Some?
    ensures CReplay(nodes[nodes[idx].parentIdx].state, [nodes[idx].moveFromParent.value] + suffix)
         == CReplay(nodes[idx].state, suffix)
  {
    assert Linked(nodes, levels, idx);
    var ts := [nodes[idx].moveFromParent.value] + suffix;
    assert ts[1..] == suffix;
  }

  /**
   * The first loop of path reconstruction (src/solver.c:351-358): the indices
   * from the solved node back to the root, the root excluded, are written
   * to a buffer of `maxDepth + 10` entries. `suffix` is the tokens on that
   * path, root side first.
   */
  method CollectPath(q: BFSQueue, solutionIdx: int, maxDepth: int, ghost initial: seq<uint8>, ghost levels: seq<nat>)
    returns (pathIndices: array<int>, pathLen: nat, ghost suffix: seq<string>)
    requires q.Valid() && Chain(q.queue[..q.tail], initial, levels)
    requires 0 < solutionIdx < q.tail && levels[solutionIdx] <= Max0(maxDepth) + 1 && maxDepth >= -9
    ensures pathIndices.Length == maxDepth + 10 && pathLen == |suffix| == levels[solutionIdx] <= pathIndices.Length
    ensures Indexed(q.queue[..q.tail], pathIndices[..pathLen], suffix)
    ensures forall k :: 0 <= k < pathLen ==> suffix[k] in PossibleTokens()
    ensures CReplay(initial, suffix) == q.queue[solutionIdx].state
  {
    ghost var nodes := q.queue[..q.tail];
    pathIndices := new int[maxDepth + 10];
    pathLen := 0;
    var idx := solutionIdx;
    suffix := [];
    ParentStep(nodes, initial, levels, solutionIdx);
    while q.queue[idx].parentIdx != -1
      invariant 0 <= idx < q.tail
      invariant pathLen + levels[idx] == levels[solutionIdx]
      invariant |suffix| == pathLen
      invariant Indexed(nodes, pathIndices[..pathLen], suffix)
      invariant forall k :: 0 <= k < pathLen ==> suffix[k] in PossibleTokens()
      invariant CReplay(nodes[idx].state, suffix) == nodes[solutionIdx].state
      decreases idx
    {
      assert nodes[idx].parentIdx != -1;
      RootStep(nodes, initial, levels, idx);
      ParentStep(nodes, initial, levels, idx);
      ReplayStep(nodes, initial, levels, idx, suffix);
      var t := q.queue[idx].moveFromParent.value;
      IndexedCons(nodes, pathIndices[..pathLen], suffix, idx);
      pathIndices[pathLen] := idx;
      pathLen := pathLen + 1;
      assert pathIndices[..pathLen] == pathIndices[..pathLen - 1] + [idx];
      suffix := [t] + suffix;
      idx := q.queue[idx].parentIdx;
    }
    RootStep(nodes, initial, levels, idx);
  }

  /**
   * `indices` lists nodes from the solved one back towards the root, and
   * `suffix` holds their tokens in the opposite order.
   */
  ghost predicate Indexed(nodes: seq<BFSNode>, indices: seq<int>, suffix: seq<string>)
  {
    && |indices| == |suffix|
    && forall k :: 0 <= k < |indices| ==>
         0 < indices[k] < |nodes| && nodes[indices[k]].moveFromParent == Some(suffix[|indices| - 1 - k])
  }

  /** Recording one more node puts its token in front of the suffix. */
  lemma IndexedCons(nodes: seq<BFSNode>, indices: seq<int>, suffix: seq<string>, idx: int)
    requires Indexed(nodes, indices, suffix) && 0 < idx < |nodes| && nodes[idx].moveFromParent.Some?
    ensures Indexed(nodes, indices + [idx], [nodes[idx].moveFromParent.value] + suffix)
  {
  }


  /**
   * Path reconstruction (src/solver.c:351-367): after the indices are
   * collected, the tokens are read out in reverse, root side first.
   */
  method Reconstruct(q: BFSQueue, solutionIdx: int, maxDepth: int, ghost initial: seq<uint8>, ghost levels: seq<nat>)
    returns (moves: seq<string>)
    requires q.Valid() && Chain(q.queue[..q.tail], initial, levels)
    requires 0 < solutionIdx < q.tail && levels[solutionIdx] <= Max0(maxDepth) + 1 && maxDepth >= -9
    ensures CReplay(initial, moves) == q.queue[solutionIdx].state
    ensures forall k :: 0 <= k < |moves| ==> moves[k] in PossibleTokens()
    ensures |moves| == levels[solutionIdx] && 1 <= |moves| <= Max0(maxDepth) + 1
  {
    var pathIndices, pathLen, suffix := CollectPath(q, solutionIdx, maxDepth, initial, levels);
    ParentStep(q.queue[..q.tail], initial, levels, solutionIdx);
    moves := ReadPath(q, pathIndices, pathLen, suffix);
  }

  /** The second loop of path reconstruction (src/solver.c:360-367): the collected tokens, read from the last index back to the first. */
  method ReadPath(q: BFSQueue, pathIndices: array<int>, pathLen: nat, ghost suffix: seq<string>)
    returns (moves: seq<string>)
    requires q.Valid() && pathLen == |suffix| <= pathIndices.Length
    requires Indexed(q.queue[..q.tail], pathIndices[..pathLen], suffix)
    ensures moves == suffix
  {
    moves := [];
    var i := pathLen - 1;
    while i >= 0
      invariant -1 <= i < pathLen
      invariant moves == suffix[..pathLen - 1 - i]
    {
      assert suffix[..pathLen - i] == suffix[..pathLen - 1 - i] + [suffix[pathLen - 1 - i]];
      moves := moves + [q.queue[pathIndices[i]].moveFromParent.value];
      i := i - 1;
    }
  }

  /**
   * `solve_bfs`: a solved state is reported at once and the table is left
   * alone; otherwise the search runs and, when it reached a solved state,
   * the tokens from the initial state to it are the solution.
   */
  method SolveBfs(initial: seq<uint8>, maxDepth: int, visited: VisitedTable) returns (out: BfsOutcome)
    requires |initial| == NUM_STICKERS && maxDepth >= -9 && visited.Valid()
    modifies visited.entries
    ensures visited.Valid()
    ensures out.AlreadySolved? <==> IsSolved(initial)
    ensures out.AlreadySolved? ==> unchanged(visited.entries)
    ensures out.Solution? ==> IsSolved(CReplay(initial, out.moves))
    ensures out.Solution? ==> forall k :: 0 <= k < |out.moves| ==> out.moves[k] in PossibleTokens()
    ensures out.Solution? ==> 1 <= |out.moves| <= Max0(maxDepth) + 1
  {
    if IsSolved(initial) {
      return AlreadySolved;
    }
    var q: BFSQueue;
    var solutionIdx: int;
    ghost var levels: seq<nat>;
    q, solutionIdx, levels := Search(initial, maxDepth, visited);
    if solutionIdx != -1 {
      var moves := Reconstruct(q, solutionIdx, maxDepth, initial, levels);
      return Solution(moves);
    }
    return NoSolution;
  }
}
