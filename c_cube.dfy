/**
 * The C solver's cube (src/solver.c:8-187): 24 `uint8_t` colour numbers,
 * turned in place by `rotate_face_cw` and `apply_single_move`, and
 * `apply_move`, which copies a state and turns the copy as a move token says.
 *
 * Both this engine and the Python packed engine are proved equal to the
 * sticker permutations of `Facelets`, so they agree index by index.
 */
module CCube {
  import opened Results
  import opened Colours
  import opened Facelets
  import opened Moves
  import opened Packing
  import PyCube

  newtype uint8 = x: int | 0 <= x < 256

  /** The `Color` value for a character outside the six colour letters. */
  const UNKNOWN: uint8 := 6

  /** `char_to_int_color`: the colour number of a letter, UNKNOWN for anything else. */
  function CharToIntColor(c: char): (n: uint8)
    ensures n <= UNKNOWN
    ensures n < UNKNOWN <==> IsColourLetter(c)
    ensures n < UNKNOWN ==> LETTERS[n as int] == c
  {
    match c
    case 'W' => 0
    case 'Y' => 1
    case 'R' => 2
    case 'O' => 3
    case 'B' => 4
    case 'G' => 5
    case _ => UNKNOWN
  }

  /** The C table and the Python dictionary give every letter the same colour number. */
  lemma CharToIntColorAgrees(c: char)
    ensures ColourNumber(c).Some? ==> CharToIntColor(c) as int == ColourNumber(c).value
    ensures ColourNumber(c).None? ==> CharToIntColor(c) == UNKNOWN
  {
    if ColourNumber(c).Some? {
      var n := ColourNumber(c).value;
      assert LETTERS[n] == c && LETTERS[CharToIntColor(c) as int] == c;
      assert n == CharToIntColor(c) as int by {
        assert forall j, k :: 0 <= j < k < NUM_COLOURS ==> LETTERS[j] != LETTERS[k];
      }
    }
  }

  /** `SOLVED_STATE` as `main` fills it from the solved colour string. */
  function SolvedState(): (s: seq<uint8>)
    ensures |s| == NUM_STICKERS
  {
    seq(NUM_STICKERS, i requires 0 <= i < NUM_STICKERS => CharToIntColor(PyCube.SOLVED_STATE_STR[i]))
  }

  /** `is_solved`: every sticker equals the solved state's. */
  predicate IsSolved(stickers: seq<uint8>)
  {
    stickers == SolvedState()
  }

  /** The C array of a packed Python state's colour numbers. */
  function ToBytes(cs: seq<nat>): (s: seq<uint8>)
    requires forall k :: 0 <= k < |cs| ==> cs[k] < 8
    ensures |s| == |cs| && forall k :: 0 <= k < |cs| ==> s[k] as int == cs[k]
  {
    seq(|cs|, k requires 0 <= k < |cs| => cs[k] as uint8)
  }

  function CArray(p: nat): (s: seq<uint8>)
    ensures |s| == NUM_STICKERS
  {
    ToBytes(Stickers(p))
  }

  /** Two colour-number sequences below 8 are equal exactly when their C arrays are. */
  lemma ToBytesInjective(a: seq<nat>, b: seq<nat>)
    requires forall k :: 0 <= k < |a| ==> a[k] < 8
    requires forall k :: 0 <= k < |b| ==> b[k] < 8
    ensures ToBytes(a) == ToBytes(b) <==> a == b
  {
    if ToBytes(a) == ToBytes(b) {
      assert forall k :: 0 <= k < |a| ==> a[k] == ToBytes(a)[k] as int;
    }
  }

  /** The C solved state is the Python solved state, so both engines call the same cube solved. */
  lemma IsSolvedAgrees(p: nat)
    requires p < STATE_BOUND
    ensures IsSolved(CArray(p)) <==> PyCube.IsSolved(PyCube.Cube(p))
  {
    var q := PyCube.SolvedStateInt();
    assert SolvedState() == CArray(q) by {
      forall k | 0 <= k < NUM_STICKERS
        ensures SolvedState()[k] == CArray(q)[k]
      {
        var c := PyCube.SOLVED_STATE_STR[k];
        PyCube.SolvedLetters();
        assert LETTERS[GetColor(q, k)] == c;
        CharToIntColorAgrees(c);
        assert ColourNumber(c).value == GetColor(q, k) by {
          assert forall j, l :: 0 <= j < l < NUM_COLOURS ==> LETTERS[j] != LETTERS[l];
        }
      }
    }
    ToBytesInjective(Stickers(p), Stickers(q));
    if Stickers(p) == Stickers(q) {
      StickersInjective(p, q);
    }
  }

  /** `rotate_face_cw`: the four stickers from `start` turn clockwise. */
  method RotateFaceCw(stickers: array<uint8>, start: nat)
    requires stickers.Length == NUM_STICKERS && start + 3 < NUM_STICKERS
    modifies stickers
    ensures stickers[..] == ApplyCycle(old(stickers[..]), FaceCycle(start))
  {
    var temp := stickers[start];
    stickers[start] := stickers[start + 2];
    stickers[start + 2] := stickers[start + 3];
    stickers[start + 3] := stickers[start + 1];
    stickers[start + 1] := temp;
  }

  /** The generator a face character names; `apply_single_move` ignores any other character. */
  function FaceOf(face: char): Option<Generator>
  {
    if face == 'R' then Some(R)
    else if face == 'U' then Some(U)
    else if face == 'F' then Some(F)
    else None
  }

  /**
   * `apply_single_move`: one clockwise quarter turn of the named face, the
   * band stickers copied from a saved original; any other face changes
   * nothing.
   */
  method ApplySingleMove(stickers: array<uint8>, face: char)
    requires stickers.Length == NUM_STICKERS
    modifies stickers
    ensures FaceOf(face).Some? ==> stickers[..] == Turn(old(stickers[..]), FaceOf(face).value)
    ensures FaceOf(face).None? ==> stickers[..] == old(stickers[..])
  {
    var original := stickers[..];
    if face == 'R' {
      RotateFaceCw(stickers, 8);
      stickers[1] := original[15];
      stickers[3] := original[13];
      stickers[5] := original[1];
      stickers[7] := original[3];
      stickers[21] := original[5];
      stickers[23] := original[7];
      stickers[15] := original[21];
      stickers[13] := original[23];
      BandsR(original);
    } else if face == 'U' {
      RotateFaceCw(stickers, 0);
      stickers[4] := original[8];
      stickers[5] := original[9];
      stickers[8] := original[12];
      stickers[9] := original[13];
      stickers[12] := original[16];
      stickers[13] := original[17];
      stickers[16] := original[4];
      stickers[17] := original[5];
      BandsU(original);
    } else if face == 'F' {
      RotateFaceCw(stickers, 4);
      stickers[2] := original[17];
      stickers[3] := original[19];
      stickers[8] := original[2];
      stickers[10] := original[3];
      stickers[20] := original[8];
      stickers[21] := original[10];
      stickers[17] := original[20];
      stickers[19] := original[21];
      BandsF(original);
    }
  }

  /** The face turn followed by the band assignments of each branch is the quarter turn of that face. */
  lemma BandsR<T>(o: seq<T>)
    requires |o| == NUM_STICKERS
    ensures ApplyCycle(o, FaceCycle(8))[1 := o[15]][3 := o[13]][5 := o[1]][7 := o[3]][21 := o[5]][23 := o[7]][15 := o[21]][13 := o[23]] == Turn(o, R)
  {
    forall i | 0 <= i < NUM_STICKERS
      ensures (ApplyCycle(o, FaceCycle(8))[1 := o[15]][3 := o[13]][5 := o[1]][7 := o[3]][21 := o[5]][23 := o[7]][15 := o[21]][13 := o[23]])[i] == Turn(o, R)[i]
    {
      TurnAt(o, R, i);
      ApplyCycleAt(o, FaceCycle(8), i);
    }
  }

  lemma BandsU<T>(o: seq<T>)
    requires |o| == NUM_STICKERS
    ensures ApplyCycle(o, FaceCycle(0))[4 := o[8]][5 := o[9]][8 := o[12]][9 := o[13]][12 := o[16]][13 := o[17]][16 := o[4]][17 := o[5]] == Turn(o, U)
  {
    forall i | 0 <= i < NUM_STICKERS
      ensures (ApplyCycle(o, FaceCycle(0))[4 := o[8]][5 := o[9]][8 := o[12]][9 := o[13]][12 := o[16]][13 := o[17]][16 := o[4]][17 := o[5]])[i] == Turn(o, U)[i]
    {
      TurnAt(o, U, i);
      ApplyCycleAt(o, FaceCycle(0), i);
    }
  }

  lemma BandsF<T>(o: seq<T>)
    requires |o| == NUM_STICKERS
    ensures ApplyCycle(o, FaceCycle(4))[2 := o[17]][3 := o[19]][8 := o[2]][10 := o[3]][20 := o[8]][21 := o[10]][17 := o[20]][19 := o[21]] == Turn(o, F)
  {
    forall i | 0 <= i < NUM_STICKERS
      ensures (ApplyCycle(o, FaceCycle(4))[2 := o[17]][3 := o[19]][8 := o[2]][10 := o[3]][20 := o[8]][21 := o[10]][17 := o[20]][19 := o[21]])[i] == Turn(o, F)[i]
    {
      TurnAt(o, F, i);
      ApplyCycleAt(o, FaceCycle(4), i);
    }
  }

  /** The face character of a token: its first character, or the terminating NUL of an empty one. */
  function MoveFace(move: string): char
  {
    if move == [] then '\0' else move[0]
  }

  /** The quarter-turn count `apply_move` reads from a token's second character. */
  function RepeatCount(move: string): (count: nat)
    ensures 1 <= count <= 3
  {
    if |move| == 2 && move[1] == '\'' then 3
    else if |move| == 2 && move[1] == '2' then 2
    else 1
  }

  /** The state `apply_move` returns for a state and a token. */
  function CMove(state: seq<uint8>, move: string): (r: seq<uint8>)
    requires |state| == NUM_STICKERS
    ensures |r| == NUM_STICKERS
  {
    match FaceOf(MoveFace(move))
    case Some(g) => TurnPow(state, g, RepeatCount(move))
    case None => state
  }

  /**
   * `apply_move`: copies the state, then turns the copy's face
   * `RepeatCount(move)` times; the argument is only read.
   */
  method ApplyMove(state: seq<uint8>, move: string) returns (result: seq<uint8>)
    requires |state| == NUM_STICKERS && '\0' !in move
    ensures result == CMove(state, move)
  {
    var a := new uint8[NUM_STICKERS](i requires 0 <= i < NUM_STICKERS => state[i]);
    var face := if move == [] then '\0' else move[0];
    var count := 1;
    // with no NUL inside, `strlen(move)` is the length of the token
    if |move| == 2 {
      if move[1] == '\'' {
        count := 3;
      } else if move[1] == '2' {
        count := 2;
      }
    }
    assert a[..] == state;
    assert face == MoveFace(move) && count == RepeatCount(move);
    for i := 0 to count
      invariant FaceOf(face).Some? ==> a[..] == TurnPow(state, FaceOf(face).value, i)
      invariant FaceOf(face).None? ==> a[..] == state
    {
      ApplySingleMove(a, face);
    }
    return a[..];
  }

  /** On the nine tokens, `apply_move` is the move they spell. */
  lemma CMoveToken(s: seq<uint8>, m: Move)
    requires |s| == NUM_STICKERS
    ensures CMove(s, Token(m)) == Moves.Apply(s, m)
  {
    assert MoveFace(Token(m)) == FaceLetter(m.face);
    match m.suffix
    case Quarter =>
    case Prime => assert Token(m)[1] == '\'';
    case Double => assert Token(m)[1] == '2';
  }

  /** A face letter followed by anything other than `'` or `2` is a single quarter turn. */
  lemma CMoveOtherSuffix(s: seq<uint8>, g: Generator, x: char)
    requires |s| == NUM_STICKERS && x != '\'' && x != '2'
    ensures CMove(s, [FaceLetter(g), x]) == Turn(s, g)
  {
    var t := [FaceLetter(g), x];
    assert MoveFace(t) == FaceLetter(g) && FaceOf(FaceLetter(g)) == Some(g);
    assert RepeatCount(t) == 1;
    assert TurnPow(s, g, 1) == Turn(TurnPow(s, g, 0), g);
  }

  /** No token holds a NUL, so every token is a whole C string. */
  lemma TokenNoNul(m: Move)
    ensures '\0' !in Token(m)
  {
    assert Token(m) == [FaceLetter(m.face)] + SuffixText(m.suffix);
  }

  /** A token and then its inverse token leave a C state as it was. */
  lemma CMoveInverse(s: seq<uint8>, m: Move)
    requires |s| == NUM_STICKERS
    ensures CMove(CMove(s, Token(m)), Token(InverseMove(m))) == s
  {
    CMoveToken(s, m);
    CMoveToken(CMove(s, Token(m)), InverseMove(m));
    ApplyInverse(s, m);
  }

  /** Four single quarter turns of a face leave a C state as it was. */
  lemma CFourTurns(s: seq<uint8>, g: Generator)
    requires |s| == NUM_STICKERS
    ensures CMove(CMove(CMove(CMove(s, [FaceLetter(g)]), [FaceLetter(g)]), [FaceLetter(g)]), [FaceLetter(g)]) == s
  {
    var t := [FaceLetter(g)];
    assert MoveFace(t) == FaceLetter(g) && FaceOf(FaceLetter(g)) == Some(g) && RepeatCount(t) == 1;
    forall x: seq<uint8> | |x| == NUM_STICKERS
      ensures CMove(x, t) == Turn(x, g)
    {
      assert TurnPow(x, g, 1) == Turn(TurnPow(x, g, 0), g);
    }
    forall i | 0 <= i < NUM_STICKERS
      ensures Turn(Turn(Turn(Turn(s, g), g), g), g)[i] == s[i]
    {
      FourStepsAt(s, g, i);
    }
  }

  /** Replaying tokens from left to right with `apply_move`. */
  function CReplay(s: seq<uint8>, moves: seq<string>): (r: seq<uint8>)
    requires |s| == NUM_STICKERS
    ensures |r| == NUM_STICKERS
    decreases |moves|
  {
    if moves == [] then s else CReplay(CMove(s, moves[0]), moves[1..])
  }

  lemma {:induction false} CReplaySnoc(s: seq<uint8>, moves: seq<string>, t: string)
    requires |s| == NUM_STICKERS
    ensures CReplay(s, moves + [t]) == CMove(CReplay(s, moves), t)
    decreases |moves|
  {
    if moves == [] {
      assert [t][1..] == [];
    } else {
      assert (moves + [t])[1..] == moves[1..] + [t];
      CReplaySnoc(CMove(s, moves[0]), moves[1..], t);
    }
  }

  function Tokens(ms: seq<Move>): (ts: seq<string>)
    ensures |ts| == |ms| && forall i :: 0 <= i < |ms| ==> ts[i] == Token(ms[i])
  {
    seq(|ms|, i requires 0 <= i < |ms| => Token(ms[i]))
  }

  /** Replaying the tokens of a move list is replaying the list. */
  lemma {:induction false} CReplayTokens(s: seq<uint8>, ms: seq<Move>)
    requires |s| == NUM_STICKERS
    ensures CReplay(s, Tokens(ms)) == ApplySeq(s, ms)
    decreases |ms|
  {
    if ms != [] {
      CMoveToken(s, ms[0]);
      assert Tokens(ms)[1..] == Tokens(ms[1..]);
      CReplayTokens(Moves.Apply(s, ms[0]), ms[1..]);
    }
  }

  /** The C engine and the Python packed engine agree on every state and every token. */
  lemma CMovePython(p: nat, m: Move)
    requires p < STATE_BOUND
    ensures CArray(PyCube.PackedApply(p, m)) == CMove(CArray(p), Token(m))
  {
    CMoveToken(CArray(p), m);
    PyCube.PackedApplyStickers(p, m);
    ApplyBytes(Stickers(p), m);
  }

  /** Converting colour numbers to bytes commutes with every move. */
  lemma ApplyBytes(cs: seq<nat>, m: Move)
    requires |cs| == NUM_STICKERS && forall k :: 0 <= k < NUM_STICKERS ==> cs[k] < 8
    ensures forall k :: 0 <= k < NUM_STICKERS ==> Moves.Apply(cs, m)[k] < 8
    ensures ToBytes(Moves.Apply(cs, m)) == Moves.Apply(ToBytes(cs), m)
  {
    TurnPowBytes(cs, m.face, Turns(m.suffix));
  }

  lemma {:induction false} TurnPowBytes(cs: seq<nat>, g: Generator, k: nat)
    requires |cs| == NUM_STICKERS && forall i :: 0 <= i < NUM_STICKERS ==> cs[i] < 8
    ensures forall i :: 0 <= i < NUM_STICKERS ==> TurnPow(cs, g, k)[i] < 8
    ensures ToBytes(TurnPow(cs, g, k)) == TurnPow(ToBytes(cs), g, k)
  {
    if k > 0 {
      TurnPowBytes(cs, g, k - 1);
      var t := TurnPow(cs, g, k - 1);
      forall i | 0 <= i < NUM_STICKERS
        ensures Turn(t, g)[i] < 8 && ToBytes(Turn(t, g))[i] == Turn(ToBytes(t), g)[i]
      {
        TurnAt(t, g, i);
        TurnAt(ToBytes(t), g, i);
      }
    }
  }

  /** `apply_move` only rearranges the colours of a state. */
  lemma CMoveKeepsColours(s: seq<uint8>, move: string)
    requires |s| == NUM_STICKERS
    ensures multiset(CMove(s, move)) == multiset(s)
  {
    if FaceOf(MoveFace(move)).Some? {
      TurnPowKeepsColours(s, FaceOf(MoveFace(move)).value, RepeatCount(move));
    }
  }
}
