/**
 * The C solver's visited set (src/solver.c:51-94): a table of 1,000,000
 * slots, each holding a state and an occupied flag, filled by open
 * addressing with linear probing from the state's djb2 hash.
 */
module CVisited {
  import opened Facelets
  import opened CCube

  const VISITED_TABLE_SIZE: nat := 1000000

  /** djb2 over the stickers in unsigned 32-bit arithmetic: `hash * 33 ^ sticker`, from 5381. */
  function Djb2(stickers: seq<uint8>): bv32
    decreases |stickers|
  {
    if stickers == [] then 5381
    else
      Mix(Djb2(stickers[..|stickers| - 1]), stickers[|stickers| - 1])
  }

  /** One step of djb2: `((hash << 5) + hash) ^ sticker`, wrapping at 2^32. */
  function Mix(hash: bv32, sticker: uint8): bv32
  {
    ((hash << 5) + hash) ^ (sticker as bv32)
  }

  /** The slot `hash_state` returns: the 32-bit hash reduced modulo the table size. */
  function HashIndex(stickers: seq<uint8>): (h: nat)
    ensures h < VISITED_TABLE_SIZE
  {
    (Djb2(stickers) as int) % VISITED_TABLE_SIZE
  }

  /** `hash_state`: folds the 24 stickers into the hash, then reduces it to a slot. */
  method HashState(stickers: seq<uint8>) returns (h: nat)
    requires |stickers| == NUM_STICKERS
    ensures h < VISITED_TABLE_SIZE && h == HashIndex(stickers)
  {
    var hash: bv32 := 5381;
    for i := 0 to NUM_STICKERS
      invariant hash == Djb2(stickers[..i])
    {
      assert stickers[..i + 1][..i] == stickers[..i];
      hash := Mix(hash, stickers[i]);
    }
    assert stickers[..NUM_STICKERS] == stickers;
    return (hash as int) % VISITED_TABLE_SIZE;
  }

  /** The slot probed `k` steps after slot `h`, wrapping around the table. */
  function Slot(h: nat, k: nat): nat
  {
    (h + k) % VISITED_TABLE_SIZE
  }

  /** How many probes after slot `h` slot `p` is reached. */
  function Dist(h: nat, p: nat): nat
    requires h < VISITED_TABLE_SIZE && p < VISITED_TABLE_SIZE
  {
    if h <= p then p - h else p + VISITED_TABLE_SIZE - h
  }

  lemma SlotDist(h: nat, p: nat)
    requires h < VISITED_TABLE_SIZE && p < VISITED_TABLE_SIZE
    ensures Dist(h, p) < VISITED_TABLE_SIZE && Slot(h, Dist(h, p)) == p
  {
  }

  lemma DistSlot(h: nat, k: nat)
    requires h < VISITED_TABLE_SIZE && k < VISITED_TABLE_SIZE
    ensures Slot(h, k) < VISITED_TABLE_SIZE && Dist(h, Slot(h, k)) == k
  {
  }

  datatype VisitedEntry = VisitedEntry(state: seq<uint8>, occupied: bool)

  /** A slot as `memset` leaves it: no state, not occupied. */
  function EmptyEntry(): VisitedEntry
  {
    VisitedEntry(seq(NUM_STICKERS, _ => 0), false)
  }

  /**
   * Occupied slots hold distinct 24-sticker states, and every slot probed
   * before an occupied one, starting from its state's hash, is occupied
   * too: a search from the hash meets the state before any free slot.
   */
  ghost predicate ValidSlots(es: seq<VisitedEntry>)
  {
    && |es| == VISITED_TABLE_SIZE
    && (forall p :: 0 <= p < VISITED_TABLE_SIZE && es[p].occupied ==>
          |es[p].state| == NUM_STICKERS && Probed(es, p))
    && (forall p, q :: 0 <= p < q < VISITED_TABLE_SIZE && es[p].occupied && es[q].occupied ==>
          es[p].state != es[q].state)
  }

  /** Every slot between the hash of the state in slot `p` and `p` is occupied. */
  ghost predicate Probed(es: seq<VisitedEntry>, p: nat)
    requires |es| == VISITED_TABLE_SIZE && p < VISITED_TABLE_SIZE
  {
    var h := HashIndex(es[p].state);
    forall k :: 0 <= k < Dist(h, p) ==> es[Slot(h, k)].occupied
  }

  /** The states held by the occupied slots. */
  ghost function StatesOf(es: seq<VisitedEntry>): set<seq<uint8>>
  {
    set p | 0 <= p < |es| && es[p].occupied :: es[p].state
  }

  ghost predicate AllOccupied(es: seq<VisitedEntry>)
  {
    forall p :: 0 <= p < |es| ==> es[p].occupied
  }

  /** Reaching a free slot after `probe` occupied slots without meeting `state` shows it is absent. */
  lemma Absent(es: seq<VisitedEntry>, state: seq<uint8>, probe: nat)
    requires ValidSlots(es) && probe < VISITED_TABLE_SIZE
    requires !es[Slot(HashIndex(state), probe)].occupied
    requires forall k :: 0 <= k < probe ==>
      es[Slot(HashIndex(state), k)].occupied && es[Slot(HashIndex(state), k)].state != state
    ensures state !in StatesOf(es)
  {
    var h := HashIndex(state);
    if state in StatesOf(es) {
      var p :| 0 <= p < |es| && es[p].occupied && es[p].state == state;
      assert Probed(es, p);
      SlotDist(h, p);
    }
  }

  /** Writing an absent state into the free slot its probe reached keeps the slots valid and adds the state. */
  lemma Insert(es: seq<VisitedEntry>, state: seq<uint8>, probe: nat)
    requires ValidSlots(es) && probe < VISITED_TABLE_SIZE && |state| == NUM_STICKERS
    requires !es[Slot(HashIndex(state), probe)].occupied
    requires forall k :: 0 <= k < probe ==> es[Slot(HashIndex(state), k)].occupied
    requires state !in StatesOf(es)
    ensures ValidSlots(es[Slot(HashIndex(state), probe) := VisitedEntry(state, true)])
    ensures StatesOf(es[Slot(HashIndex(state), probe) := VisitedEntry(state, true)]) == StatesOf(es) + {state}
  {
    var pos := Slot(HashIndex(state), probe);
    var es' := es[pos := VisitedEntry(state, true)];
    DistSlot(HashIndex(state), probe);
    forall p | 0 <= p < VISITED_TABLE_SIZE && es'[p].occupied
      ensures |es'[p].state| == NUM_STICKERS && Probed(es', p)
    {
      if p != pos {
        assert es[p].occupied && Probed(es, p);
      }
    }
    forall p, q | 0 <= p < q < VISITED_TABLE_SIZE && es'[p].occupied && es'[q].occupied
      ensures es'[p].state != es'[q].state
    {
      if p != pos && q != pos {
        assert es[p].occupied && es[q].occupied;
      } else if p == pos {
        assert es[q].state in StatesOf(es);
      } else {
        assert es[p].state in StatesOf(es);
      }
    }
    assert es'[pos].state in StatesOf(es');
    forall s | s in StatesOf(es')
      ensures s in StatesOf(es) + {state}
    {
      var p :| 0 <= p < |es'| && es'[p].occupied && es'[p].state == s;
      if p != pos {
        assert es[p].state in StatesOf(es);
      }
    }
    forall s | s in StatesOf(es)
      ensures s in StatesOf(es')
    {
      var p :| 0 <= p < |es| && es[p].occupied && es[p].state == s;
      assert es'[p] == es[p];
    }
  }

  /** Probing every slot without a free one means every slot is occupied. */
  lemma AllProbed(es: seq<VisitedEntry>, h: nat)
    requires |es| == VISITED_TABLE_SIZE && h < VISITED_TABLE_SIZE
    requires forall k :: 0 <= k < VISITED_TABLE_SIZE ==> es[Slot(h, k)].occupied
    ensures AllOccupied(es)
  {
    forall p | 0 <= p < VISITED_TABLE_SIZE
      ensures es[p].occupied
    {
      SlotDist(h, p);
    }
  }

  class VisitedTable {
    var entries: array<VisitedEntry>

    ghost predicate Valid()
      reads this, entries
    {
      entries.Length == VISITED_TABLE_SIZE && ValidSlots(entries[..])
    }

    /** The states marked visited. */
    ghost function Contents(): set<seq<uint8>>
      reads this, entries
    {
      StatesOf(entries[..])
    }

    /** Every slot is occupied. */
    ghost predicate Full()
      reads this, entries
    {
      AllOccupied(entries[..])
    }

    constructor()
      ensures Valid() && Contents() == {} && fresh(entries)
    {
      entries := new VisitedEntry[VISITED_TABLE_SIZE](_ => EmptyEntry());
    }

    /** `memset(visited_table, 0, ...)`: every slot becomes free. */
    method Clear()
      requires entries.Length == VISITED_TABLE_SIZE
      modifies entries
      ensures Valid() && Contents() == {}
    {
      forall p | 0 <= p < entries.Length {
        entries[p] := EmptyEntry();
      }
    }

    /**
     * `mark_visited`: probes from the state's hash. A free slot receives the
     * state (true); meeting the state itself, or probing every slot, leaves
     * the table as it was (false), so a full table looks like a visited state.
     */
    method MarkVisited(state: seq<uint8>) returns (inserted: bool)
      requires Valid() && |state| == NUM_STICKERS
      modifies entries
      ensures Valid()
      ensures inserted ==> state !in old(Contents()) && Contents() == old(Contents()) + {state}
      ensures !inserted ==> entries[..] == old(entries[..]) && (state in old(Contents()) || old(Full()))
    {
      var idx := HashState(state);
      var probe := 0;
      while probe < VISITED_TABLE_SIZE
        invariant 0 <= probe <= VISITED_TABLE_SIZE
        invariant forall k :: 0 <= k < probe ==>
          entries[Slot(idx, k)].occupied && entries[Slot(idx, k)].state != state
      {
        var pos := (idx + probe) % VISITED_TABLE_SIZE;
        if !entries[pos].occupied {
          Absent(entries[..], state, probe);
          Insert(entries[..], state, probe);
          entries[pos] := VisitedEntry(state, true);
          return true;
        }
        if entries[pos].state == state {
          assert state in Contents();
          return false;
        }
        probe := probe + 1;
      }
      AllProbed(entries[..], idx);
      return false;
    }
  }
}
