/**
 * The nine face-turn moves both solvers search over, their textual tokens,
 * and their effect on a sticker sequence.
 *
 * A token is a face letter optionally followed by `'` (three clockwise
 * quarter turns) or `2` (two quarter turns); the list of tokens is the one
 * the Python engine and the C solver both enumerate (src/app.py:234-236,
 * src/solver.c:265).
 */
module Moves {
  import opened Facelets

  datatype Suffix = Quarter | Prime | Double

  datatype Move = Move(face: Generator, suffix: Suffix)

  /** Number of clockwise quarter turns a suffix stands for. */
  function Turns(x: Suffix): (n: nat)
    ensures 1 <= n <= 3
  {
    match x
    case Quarter => 1
    case Double => 2
    case Prime => 3
  }

  function FaceLetter(g: Generator): char
  {
    match g
    case R => 'R'
    case U => 'U'
    case F => 'F'
  }

  function SuffixText(x: Suffix): string
  {
    match x
    case Quarter => ""
    case Prime => "'"
    case Double => "2"
  }

  /** The token spelling of a move: its face letter, then its suffix. */
  function Token(m: Move): (t: string)
    ensures 1 <= |t| <= 2 && t[0] == FaceLetter(m.face)
  {
    [FaceLetter(m.face)] + SuffixText(m.suffix)
  }

  /** Distinct moves have distinct tokens. */
  lemma TokenInjective(m1: Move, m2: Move)
    requires Token(m1) == Token(m2)
    ensures m1 == m2
  {
    assert Token(m1)[0] == Token(m2)[0];
    assert |Token(m1)| == |Token(m2)|;
    if |Token(m1)| == 2 {
      assert Token(m1)[1] == Token(m2)[1];
    }
  }

  /** The move list in the order both engines enumerate it. */
  function PossibleMoves(): (ms: seq<Move>)
    ensures |ms| == 9
  {
    [Move(R, Quarter), Move(R, Prime), Move(R, Double),
     Move(U, Quarter), Move(U, Prime), Move(U, Double),
     Move(F, Quarter), Move(F, Prime), Move(F, Double)]
  }

  /** Every move appears in the list, exactly once. */
  lemma PossibleMovesComplete(m: Move)
    ensures m in PossibleMoves()
    ensures forall i, j :: 0 <= i < j < 9 ==> PossibleMoves()[i] != PossibleMoves()[j]
  {
    var base := match m.face case R => 0 case U => 3 case F => 6;
    var off := match m.suffix case Quarter => 0 case Prime => 1 case Double => 2;
    assert PossibleMoves()[base + off] == m;
  }

  function PossibleTokens(): (ts: seq<string>)
    ensures |ts| == 9
  {
    seq(9, i requires 0 <= i < 9 => Token(PossibleMoves()[i]))
  }

  /** The token list is literally R, R', R2, U, U', U2, F, F', F2. */
  lemma PossibleTokensSpelled()
    ensures PossibleTokens() == ["R", "R'", "R2", "U", "U'", "U2", "F", "F'", "F2"]
  {
    var ts := PossibleTokens();
    assert ts[0] == "R" && ts[1] == "R'" && ts[2] == "R2";
    assert ts[3] == "U" && ts[4] == "U'" && ts[5] == "U2";
    assert ts[6] == "F" && ts[7] == "F'" && ts[8] == "F2";
  }

  /** The undoing move: X and X' swap, X2 undoes itself. */
  function InverseMove(m: Move): (r: Move)
    ensures r.face == m.face
    ensures Turns(m.suffix) + Turns(r.suffix) == 4
  {
    match m.suffix
    case Quarter => Move(m.face, Prime)
    case Prime => Move(m.face, Quarter)
    case Double => Move(m.face, Double)
  }

  lemma InverseInvolution(m: Move)
    ensures InverseMove(InverseMove(m)) == m
  {
  }

  /** The effect of a move on a sticker sequence. */
  function Apply<T>(s: seq<T>, m: Move): (r: seq<T>)
    requires |s| == NUM_STICKERS
    ensures |r| == NUM_STICKERS
  {
    TurnPow(s, m.face, Turns(m.suffix))
  }

  /** Replaying a list of moves from left to right. */
  function ApplySeq<T>(s: seq<T>, ms: seq<Move>): (r: seq<T>)
    requires |s| == NUM_STICKERS
    ensures |r| == NUM_STICKERS
    decreases |ms|
  {
    if ms == [] then s else ApplySeq(Apply(s, ms[0]), ms[1..])
  }

  /** Replaying a concatenation is replaying its parts one after the other. */
  lemma {:induction false} ApplySeqAppend<T>(s: seq<T>, a: seq<Move>, b: seq<Move>)
    requires |s| == NUM_STICKERS
    ensures ApplySeq(s, a + b) == ApplySeq(ApplySeq(s, a), b)
    decreases |a|
  {
    if a != [] {
      assert (a + b)[0] == a[0];
      assert (a + b)[1..] == a[1..] + b;
      ApplySeqAppend(Apply(s, a[0]), a[1..], b);
    } else {
      assert a + b == b;
    }
  }

  lemma ApplySeqSnoc<T>(s: seq<T>, a: seq<Move>, m: Move)
    requires |s| == NUM_STICKERS
    ensures ApplySeq(s, a + [m]) == Apply(ApplySeq(s, a), m)
  {
    ApplySeqAppend(s, a, [m]);
    assert [m][1..] == [];
  }

  /** Two moves of the same face add their quarter turns modulo four. */
  lemma SameFaceCompose<T>(s: seq<T>, g: Generator, x: Suffix, y: Suffix)
    requires |s| == NUM_STICKERS
    ensures Apply(Apply(s, Move(g, x)), Move(g, y)) == TurnPow(s, g, (Turns(x) + Turns(y)) % 4)
  {
    TurnPowCompose(s, g, Turns(x), Turns(y));
  }

  /** A move followed by its inverse changes nothing. */
  lemma ApplyInverse<T>(s: seq<T>, m: Move)
    requires |s| == NUM_STICKERS
    ensures Apply(Apply(s, m), InverseMove(m)) == s
  {
    SameFaceCompose(s, m.face, m.suffix, InverseMove(m).suffix);
  }

  /** A double move twice changes nothing. */
  lemma DoubleTwice<T>(s: seq<T>, g: Generator)
    requires |s| == NUM_STICKERS
    ensures Apply(Apply(s, Move(g, Double)), Move(g, Double)) == s
  {
    ApplyInverse(s, Move(g, Double));
  }

  /** The moves that undo `ms`: the inverses, in reverse order. */
  function InvertPath(ms: seq<Move>): (r: seq<Move>)
    ensures |r| == |ms|
    ensures forall i :: 0 <= i < |ms| ==> r[i] == InverseMove(ms[|ms| - 1 - i])
  {
    if ms == [] then [] else InvertPath(ms[1..]) + [InverseMove(ms[0])]
  }

  lemma InvertPathAppend(ms: seq<Move>, m: Move)
    ensures InvertPath(ms + [m]) == [InverseMove(m)] + InvertPath(ms)
  {
  }

  /** Replaying a path and then its inverse path returns to the start. */
  lemma {:induction false} UndoPath<T>(s: seq<T>, ms: seq<Move>)
    requires |s| == NUM_STICKERS
    ensures ApplySeq(ApplySeq(s, ms), InvertPath(ms)) == s
    decreases |ms|
  {
    if ms != [] {
      var t := Apply(s, ms[0]);
      var rest := InvertPath(ms[1..]);
      assert InvertPath(ms) == rest + [InverseMove(ms[0])];
      calc {
        ApplySeq(ApplySeq(s, ms), InvertPath(ms));
        ApplySeq(ApplySeq(t, ms[1..]), rest + [InverseMove(ms[0])]);
        { ApplySeqSnoc(ApplySeq(t, ms[1..]), rest, InverseMove(ms[0])); }
        Apply(ApplySeq(ApplySeq(t, ms[1..]), rest), InverseMove(ms[0]));
        { UndoPath(t, ms[1..]); }
        Apply(t, InverseMove(ms[0]));
        { ApplyInverse(s, ms[0]); }
        s;
      }
    }
  }

  /** No two consecutive moves of a path turn the same face. */
  predicate NoRepeatedFace(ms: seq<Move>)
  {
    forall i :: 0 <= i < |ms| - 1 ==> ms[i].face != ms[i + 1].face
  }

  /** Every move keeps the colours, only rearranging them. */
  lemma {:induction false} ApplySeqKeepsColours<T>(s: seq<T>, ms: seq<Move>)
    requires |s| == NUM_STICKERS
    ensures multiset(ApplySeq(s, ms)) == multiset(s)
    decreases |ms|
  {
    if ms != [] {
      ApplyKeepsColours(s, ms[0]);
      ApplySeqKeepsColours(Apply(s, ms[0]), ms[1..]);
    }
  }

  lemma ApplyKeepsColours<T>(s: seq<T>, m: Move)
    requires |s| == NUM_STICKERS
    ensures multiset(Apply(s, m)) == multiset(s)
  {
    TurnPowKeepsColours(s, m.face, Turns(m.suffix));
  }

  lemma {:induction false} TurnPowKeepsColours<T>(s: seq<T>, g: Generator, k: nat)
    requires |s| == NUM_STICKERS
    ensures multiset(TurnPow(s, g, k)) == multiset(s)
  {
    if k > 0 {
      TurnPowKeepsColours(s, g, k - 1);
      TurnKeepsColours(TurnPow(s, g, k - 1), g);
    }
  }
}
