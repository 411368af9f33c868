/**
 * The C solver's growable node queue (src/solver.c:44-49, 268-295): an
 * array of BFS nodes, a head and a tail index, and a capacity that doubles
 * when an append finds the array full.
 */
module CQueue {
  import opened Results
  import opened CCube

  /**
   * `BFSNode`: a state, the index of the node it was reached from (-1 for
   * the root) and the token of the move that reached it (NULL for the root).
   */
  datatype BFSNode = BFSNode(state: seq<uint8>, parentIdx: int, moveFromParent: Option<string>)

  class BFSQueue {
    var queue: array<BFSNode>
    var head: int
    var tail: int
    var capacity: int

    /** The array has `capacity` slots, of which those below `tail` are filled and those below `head` taken. */
    ghost predicate Valid()
      reads this
    {
      queue.Length == capacity && 0 < capacity && 0 <= head <= tail <= capacity
    }

    /** The nodes appended so far, in order. */
    ghost function Nodes(): seq<BFSNode>
      reads this, queue
      requires Valid()
    {
      queue[..tail]
    }

    /** `create_queue`: an empty queue with room for `initialCapacity` nodes. */
    constructor(initialCapacity: int)
      requires initialCapacity > 0
      ensures Valid() && head == 0 && tail == 0 && capacity == initialCapacity && fresh(queue)
    {
      queue := new BFSNode[initialCapacity];
      head := 0;
      tail := 0;
      capacity := initialCapacity;
    }

    /**
     * `enqueue`: when the array is full its capacity doubles and the nodes are
     * carried over (`realloc`); the node is then written at the old tail.
     */
    method Enqueue(state: seq<uint8>, parentIdx: int, move: Option<string>)
      requires Valid()
      modifies this, queue
      ensures Valid()
      ensures Nodes() == old(Nodes()) + [BFSNode(state, parentIdx, move)]
      ensures head == old(head) && tail == old(tail) + 1
      ensures capacity == if old(tail) >= old(capacity) then 2 * old(capacity) else old(capacity)
      ensures queue == old(queue) || fresh(queue)
    {
      if tail >= capacity {
        capacity := capacity * 2;
        var grown := new BFSNode[capacity];
        forall i | 0 <= i < queue.Length {
          grown[i] := queue[i];
        }
        queue := grown;
      }
      queue[tail] := BFSNode(state, parentIdx, move);
      tail := tail + 1;
    }
  }
}
