/**
 * The sticker-level reference model of the 2x2 cube shared by both engines.
 *
 * A cube is 24 stickers, face by face, each face in row-major order
 * (top-left, top-right, bottom-left, bottom-right):
 *   U: 0-3   F: 4-7   R: 8-11   B: 12-15   L: 16-19   D: 20-23
 * A clockwise quarter turn of a generator face is three disjoint 4-cycles
 * of sticker positions: one on the face itself and two on the band of the
 * four neighbouring faces. The band table below is the wiring of the
 * engines' assignments (src/app.py:132-214, src/solver.c:119-162).
 */
module Facelets {

  const NUM_STICKERS: nat := 24

  /** The three faces that the engines can turn. */
  datatype Generator = R | U | F

  /**
   * The 4-cycle (x0 x1 x2 x3): the sticker at x0 moves to x1, the one at x1
   * to x2, the one at x2 to x3 and the one at x3 back to x0.
   */
  datatype Cycle = Cycle(x0: nat, x1: nat, x2: nat, x3: nat)

  /** Index of the top-left sticker of the turned face. */
  function FaceStart(g: Generator): (start: nat)
    ensures start + 3 < NUM_STICKERS
  {
    match g
    case U => 0
    case F => 4
    case R => 8
  }

  /**
   * A clockwise face rotation with (a, b, c, d) = (start .. start + 3) sets
   * new[a] = old[c], new[b] = old[a], new[c] = old[d], new[d] = old[b]:
   * stickers travel a -> b -> d -> c -> a.
   */
  function FaceCycle(start: nat): Cycle
  {
    Cycle(start, start + 1, start + 3, start + 2)
  }

  /** The two band 4-cycles of each generator. */
  function BandCycles(g: Generator): (Cycle, Cycle)
  {
    match g
    // U1 -> F1 -> D1 -> B3 -> U1 and U3 -> F3 -> D3 -> B1 -> U3
    case R => (Cycle(1, 5, 21, 15), Cycle(3, 7, 23, 13))
    // F0 -> L0 -> B0 -> R0 -> F0 and F1 -> L1 -> B1 -> R1 -> F1
    case U => (Cycle(4, 16, 12, 8), Cycle(5, 17, 13, 9))
    // U2 -> R0 -> D0 -> L1 -> U2 and U3 -> R2 -> D1 -> L3 -> U3
    case F => (Cycle(2, 8, 20, 17), Cycle(3, 10, 21, 19))
  }

  /** The three cycles of a generator, face cycle first. */
  function Cycles(g: Generator): seq<Cycle>
  {
    [FaceCycle(FaceStart(g)), BandCycles(g).0, BandCycles(g).1]
  }

  function Positions(c: Cycle): set<nat>
  {
    {c.x0, c.x1, c.x2, c.x3}
  }

  /** The 12 positions a turn of `g` may change. */
  function Moved(g: Generator): set<nat>
  {
    var cs := Cycles(g);
    Positions(cs[0]) + Positions(cs[1]) + Positions(cs[2])
  }

  /** The positions of a cycle lie on the cube and are pairwise distinct. */
  predicate ProperCycle(c: Cycle)
  {
    && c.x0 < NUM_STICKERS && c.x1 < NUM_STICKERS && c.x2 < NUM_STICKERS && c.x3 < NUM_STICKERS
    && c.x0 != c.x1 && c.x0 != c.x2 && c.x0 != c.x3
    && c.x1 != c.x2 && c.x1 != c.x3 && c.x2 != c.x3
  }

  /** Apply one 4-cycle to a sticker sequence. */
  function ApplyCycle<T>(s: seq<T>, c: Cycle): (r: seq<T>)
    requires ProperCycle(c) && |s| == NUM_STICKERS
    ensures |r| == NUM_STICKERS
  {
    s[c.x1 := s[c.x0]][c.x2 := s[c.x1]][c.x3 := s[c.x2]][c.x0 := s[c.x3]]
  }

  /** Overwriting one element moves one occurrence from the old value to the new one. */
  lemma UpdateCount<T>(s: seq<T>, i: nat, v: T, w: T)
    requires i < |s|
    ensures multiset(s[i := v])[w]
         == multiset(s)[w] - (if w == s[i] then 1 else 0) + (if w == v then 1 else 0)
  {
    assert s == s[..i] + [s[i]] + s[i + 1..];
    assert s[i := v] == s[..i] + [v] + s[i + 1..];
  }

  lemma CycleKeepsCount<T>(s: seq<T>, x0: nat, x1: nat, x2: nat, x3: nat, w: T)
    requires x0 < |s| && x1 < |s| && x2 < |s| && x3 < |s|
    requires x0 != x1 && x0 != x2 && x0 != x3 && x1 != x2 && x1 != x3 && x2 != x3
    ensures multiset(s[x1 := s[x0]][x2 := s[x1]][x3 := s[x2]][x0 := s[x3]])[w] == multiset(s)[w]
  {
    var a, b, c, d := s[x0], s[x1], s[x2], s[x3];
    var s1 := s[x1 := a];
    var s2 := s1[x2 := b];
    var s3 := s2[x3 := c];
    var s4 := s3[x0 := d];
    var ia, ib := if w == a then 1 else 0, if w == b then 1 else 0;
    var ic, id := if w == c then 1 else 0, if w == d then 1 else 0;
    UpdateCount(s, x1, a, w);
    assert multiset(s1)[w] == multiset(s)[w] - ib + ia;
    UpdateCount(s1, x2, b, w);
    assert s1[x2] == c;
    assert multiset(s2)[w] == multiset(s1)[w] - ic + ib;
    UpdateCount(s2, x3, c, w);
    assert s2[x3] == d;
    assert multiset(s3)[w] == multiset(s2)[w] - id + ic;
    UpdateCount(s3, x0, d, w);
    assert s3[x0] == a;
    assert multiset(s4)[w] == multiset(s3)[w] - ia + id;
  }

  lemma CycleKeepsMultiset<T>(s: seq<T>, c: Cycle)
    requires ProperCycle(c) && |s| == NUM_STICKERS
    ensures multiset(ApplyCycle(s, c)) == multiset(s)
  {
    forall w
      ensures multiset(s[c.x1 := s[c.x0]][c.x2 := s[c.x1]][c.x3 := s[c.x2]][c.x0 := s[c.x3]])[w]
           == multiset(s)[w]
    {
      CycleKeepsCount(s, c.x0, c.x1, c.x2, c.x3, w);
    }
  }

  /** One clockwise quarter turn of face `g`: position i receives the sticker from Prev(g, i). */
  function Turn<T>(s: seq<T>, g: Generator): (r: seq<T>)
    requires |s| == NUM_STICKERS
    ensures |r| == NUM_STICKERS
  {
    seq(NUM_STICKERS, i requires 0 <= i < NUM_STICKERS => s[PrevBounded(g, i)])
  }

  /** Turn is the three cycles applied one after the other. */
  lemma TurnIsCycles<T>(s: seq<T>, g: Generator)
    requires |s| == NUM_STICKERS
    ensures Turn(s, g) == ApplyCycle(ApplyCycle(ApplyCycle(s, Cycles(g)[0]), Cycles(g)[1]), Cycles(g)[2])
  {
    var cs := Cycles(g);
    var t1 := ApplyCycle(s, cs[0]);
    var t2 := ApplyCycle(t1, cs[1]);
    var t3 := ApplyCycle(t2, cs[2]);
    forall i | 0 <= i < NUM_STICKERS ensures Turn(s, g)[i] == t3[i] {
      ApplyCycleAt(t2, cs[2], i);
      var j := CyclePrev(cs[2], i);
      ApplyCycleAt(t1, cs[1], j);
      ApplyCycleAt(s, cs[0], CyclePrev(cs[1], j));
    }
  }

  /** A turn permutes the stickers, so the multiset of colours is conserved. */
  lemma TurnKeepsColours<T>(s: seq<T>, g: Generator)
    requires |s| == NUM_STICKERS
    ensures multiset(Turn(s, g)) == multiset(s)
  {
    var cs := Cycles(g);
    var t1 := ApplyCycle(s, cs[0]);
    var t2 := ApplyCycle(t1, cs[1]);
    TurnIsCycles(s, g);
    CycleKeepsMultiset(s, cs[0]);
    CycleKeepsMultiset(t1, cs[1]);
    CycleKeepsMultiset(t2, cs[2]);
  }

  /** A turn leaves every sticker outside the 12 positions of its cycles where it was. */
  lemma TurnLocal<T>(s: seq<T>, g: Generator, i: nat)
    requires |s| == NUM_STICKERS && i < NUM_STICKERS && i !in Moved(g)
    ensures Turn(s, g)[i] == s[i]
  {
  }

  /** `k` successive quarter turns of face `g`. */
  function TurnPow<T>(s: seq<T>, g: Generator, k: nat): (r: seq<T>)
    requires |s| == NUM_STICKERS
    ensures |r| == NUM_STICKERS
  {
    if k == 0 then s else Turn(TurnPow(s, g, k - 1), g)
  }

  /** The position whose sticker a cycle brings to position `i`. */
  function CyclePrev(c: Cycle, i: nat): nat
  {
    if i == c.x1 then c.x0
    else if i == c.x2 then c.x1
    else if i == c.x3 then c.x2
    else if i == c.x0 then c.x3
    else i
  }

  /** The position whose sticker a quarter turn of `g` brings to position `i`. */
  function Prev(g: Generator, i: nat): nat
  {
    var cs := Cycles(g);
    CyclePrev(cs[0], CyclePrev(cs[1], CyclePrev(cs[2], i)))
  }

  function PrevBounded(g: Generator, i: nat): (j: nat)
    requires i < NUM_STICKERS
    ensures j < NUM_STICKERS && j == Prev(g, i)
  {
    var cs := Cycles(g);
    CyclesDisjoint(g);
    Prev(g, i)
  }

  lemma ApplyCycleAt<T>(s: seq<T>, c: Cycle, i: nat)
    requires ProperCycle(c) && |s| == NUM_STICKERS && i < NUM_STICKERS
    ensures CyclePrev(c, i) < NUM_STICKERS && ApplyCycle(s, c)[i] == s[CyclePrev(c, i)]
  {
    if i !in Positions(c) {
      assert i != c.x0 && i != c.x1 && i != c.x2 && i != c.x3;
    }
  }

  lemma TurnAt<T>(s: seq<T>, g: Generator, i: nat)
    requires |s| == NUM_STICKERS && i < NUM_STICKERS
    ensures Prev(g, i) < NUM_STICKERS && Turn(s, g)[i] == s[Prev(g, i)]
  {
  }

  lemma CyclePrevFour(c: Cycle, i: nat)
    requires ProperCycle(c)
    ensures i in Positions(c) <==> CyclePrev(c, i) in Positions(c)
    ensures CyclePrev(c, CyclePrev(c, CyclePrev(c, CyclePrev(c, i)))) == i
  {
  }

  /** The three cycles of a generator are proper and pairwise disjoint. */
  lemma CyclesDisjoint(g: Generator)
    ensures forall k :: 0 <= k < 3 ==> ProperCycle(Cycles(g)[k])
    ensures forall k, l :: 0 <= k < l < 3 ==> Positions(Cycles(g)[k]) !! Positions(Cycles(g)[l])
  {
  }

  /** On the positions of one of its cycles, a turn steps back along that cycle. */
  lemma PrevIn(g: Generator, k: nat, i: nat)
    requires k < 3 && i in Positions(Cycles(g)[k])
    ensures Prev(g, i) == CyclePrev(Cycles(g)[k], i)
    ensures Prev(g, i) in Positions(Cycles(g)[k])
  {
    var cs := Cycles(g);
    CyclesDisjoint(g);
    CyclePrevFour(cs[k], i);
    if k == 0 {
      assert i !in Positions(cs[1]) && i !in Positions(cs[2]);
    } else if k == 1 {
      assert i !in Positions(cs[2]);
      assert CyclePrev(cs[1], i) !in Positions(cs[0]);
    } else {
      assert CyclePrev(cs[2], i) !in Positions(cs[0]) && CyclePrev(cs[2], i) !in Positions(cs[1]);
    }
  }

  /** Every position returns to itself after four steps back along the cycles. */
  lemma PrevFour(g: Generator, i: nat)
    requires i < NUM_STICKERS
    ensures Prev(g, Prev(g, Prev(g, Prev(g, i)))) == i
  {
    var cs := Cycles(g);
    if k :| 0 <= k < 3 && i in Positions(cs[k]) {
      PrevIn(g, k, i);
      PrevIn(g, k, Prev(g, i));
      PrevIn(g, k, Prev(g, Prev(g, i)));
      PrevIn(g, k, Prev(g, Prev(g, Prev(g, i))));
      CyclePrevFour(cs[k], i);
    } else {
      assert Prev(g, i) == i;
    }
  }

  /** Four quarter turns of any generator give back the original stickers. */
  lemma FourTurnsIdentity<T>(s: seq<T>, g: Generator)
    requires |s| == NUM_STICKERS
    ensures TurnPow(s, g, 4) == s
  {
    var t1 := Turn(s, g);
    var t2 := Turn(t1, g);
    var t3 := Turn(t2, g);
    var t4 := Turn(t3, g);
    forall i | 0 <= i < NUM_STICKERS ensures t4[i] == s[i] {
      FourStepsAt(s, g, i);
    }
    assert t4 == s;
    assert TurnPow(s, g, 1) == t1;
    assert TurnPow(s, g, 2) == t2;
    assert TurnPow(s, g, 3) == t3;
  }

  lemma FourStepsAt<T>(s: seq<T>, g: Generator, i: nat)
    requires |s| == NUM_STICKERS && i < NUM_STICKERS
    ensures Turn(Turn(Turn(Turn(s, g), g), g), g)[i] == s[i]
  {
    var t1 := Turn(s, g);
    var t2 := Turn(t1, g);
    var t3 := Turn(t2, g);
    TurnAt(t3, g, i);
    var p1 := Prev(g, i);
    TurnAt(t2, g, p1);
    var p2 := Prev(g, p1);
    TurnAt(t1, g, p2);
    var p3 := Prev(g, p2);
    TurnAt(s, g, p3);
    PrevFour(g, i);
  }

  /** Quarter turns of one face compose by adding their counts. */
  lemma {:induction false} TurnPowAdd<T>(s: seq<T>, g: Generator, a: nat, b: nat)
    requires |s| == NUM_STICKERS
    ensures TurnPow(TurnPow(s, g, a), g, b) == TurnPow(s, g, a + b)
  {
    if b > 0 {
      TurnPowAdd(s, g, a, b - 1);
    }
  }

  /** Only the residue of the count modulo four matters. */
  lemma {:induction false} TurnPowMod<T>(s: seq<T>, g: Generator, k: nat)
    requires |s| == NUM_STICKERS
    ensures TurnPow(s, g, k) == TurnPow(s, g, k % 4)
  {
    if k >= 4 {
      var r := k - 4;
      TurnPowAdd(s, g, 4, r);
      FourTurnsIdentity(s, g);
      TurnPowMod(s, g, r);
      assert r % 4 == k % 4;
    }
  }

  /** Turning `a` times and then `b` times is turning `(a + b) % 4` times. */
  lemma TurnPowCompose<T>(s: seq<T>, g: Generator, a: nat, b: nat)
    requires |s| == NUM_STICKERS
    ensures TurnPow(TurnPow(s, g, a), g, b) == TurnPow(s, g, (a + b) % 4)
  {
    TurnPowAdd(s, g, a, b);
    TurnPowMod(s, g, a + b);
  }

  /** The identity labelling: sticker i carries label i. */
  function Labels(): (r: seq<nat>)
    ensures |r| == NUM_STICKERS && forall i :: 0 <= i < NUM_STICKERS ==> r[i] == i
  {
    seq(NUM_STICKERS, i => i)
  }

  /** Exactly the positions of its three cycles are ones a turn of `g` takes from elsewhere. */
  lemma PrevMoves(g: Generator, i: nat)
    requires i < NUM_STICKERS
    ensures Prev(g, i) != i <==> i in Moved(g)
  {
    var cs := Cycles(g);
    CyclesDisjoint(g);
    if k :| 0 <= k < 3 && i in Positions(cs[k]) {
      PrevIn(g, k, i);
    }
  }

  /**
   * A turn of `g` displaces exactly the stickers of its three cycles: on the
   * identity labelling, position i changes if and only if i is one of them.
   */
  lemma MovedExactly(g: Generator, i: nat)
    requires i < NUM_STICKERS
    ensures Turn(Labels(), g)[i] != i <==> i in Moved(g)
  {
    TurnAt(Labels(), g, i);
    PrevMoves(g, i);
  }

  /** The twelve positions each generator's turn can change. */
  lemma MovedSets()
    ensures Moved(R) == {8, 9, 10, 11, 1, 3, 5, 7, 13, 15, 21, 23}
    ensures Moved(U) == {0, 1, 2, 3, 4, 5, 8, 9, 12, 13, 16, 17}
    ensures Moved(F) == {4, 5, 6, 7, 2, 3, 8, 10, 17, 19, 20, 21}
  {
  }

  lemma PositionsCount(c: Cycle)
    requires ProperCycle(c)
    ensures |Positions(c)| == 4
  {
    assert Positions(c) == {c.x0} + {c.x1} + {c.x2} + {c.x3};
  }

  lemma DisjointUnionCount(a: set<nat>, b: set<nat>)
    requires a !! b
    ensures |a + b| == |a| + |b|
  {
    assert a * b == {};
  }

  /** Each quarter turn moves twelve of the twenty-four stickers. */
  lemma MovedCount(g: Generator)
    ensures |Moved(g)| == 12
  {
    var cs := Cycles(g);
    CyclesDisjoint(g);
    PositionsCount(cs[0]);
    PositionsCount(cs[1]);
    PositionsCount(cs[2]);
    DisjointUnionCount(Positions(cs[0]), Positions(cs[1]));
    DisjointUnionCount(Positions(cs[0]) + Positions(cs[1]), Positions(cs[2]));
  }
}
