/**
 * The Python `Cube`: an immutable value holding a packed state, its
 * constructor's validation, and the move engine that turns faces by reading
 * and writing three-bit groups (src/app.py:69-236).
 */
module PyCube {
  import opened Results
  import opened Colours
  import opened Packing
  import opened Facelets
  import opened Moves

  /** The exception the engine raises, with its message. */
  datatype ValueError = ValueError(message: string)

  /** U white, F green, R red, B blue, L orange, D yellow. */
  const SOLVED_STATE_STR: string := "WWWW" + "GGGG" + "RRRR" + "BBBB" + "OOOO" + "YYYY"

  lemma SolvedLetters()
    ensures |SOLVED_STATE_STR| == NUM_STICKERS && AllColourLetters(SOLVED_STATE_STR)
  {
  }

  function SolvedStateInt(): (p: nat)
    ensures p < STATE_BOUND && Decodable(p) && Letters(p) == SOLVED_STATE_STR
  {
    SolvedLetters();
    PackThenUnpack(SOLVED_STATE_STR);
    Pow8Stickers();
    Pack(Numbers(SOLVED_STATE_STR))
  }

  datatype Cube = Cube(state: nat)

  /** `Cube()`: the solved cube. */
  function SolvedCube(): Cube
  {
    Cube(SolvedStateInt())
  }

  /** `Cube(state_str=s)`: checks the length, then the letters; colour counts are not checked. */
  function FromString(s: string): (r: Result<Cube, ValueError>)
    ensures r.Success? <==> |s| == NUM_STICKERS && AllColourLetters(s)
    ensures |s| != NUM_STICKERS ==> r == Failure(ValueError("Cube state string must be 24 characters long."))
    ensures |s| == NUM_STICKERS && !AllColourLetters(s) ==> r == Failure(ValueError("Cube state string contains invalid colors."))
    ensures r.Success? ==> r.value.state < STATE_BOUND && Decodable(r.value.state) && Letters(r.value.state) == s
  {
    if |s| != NUM_STICKERS then Failure(ValueError("Cube state string must be 24 characters long."))
    else if !AllColourLetters(s) then Failure(ValueError("Cube state string contains invalid colors."))
    else
      PackThenUnpack(s);
      Pow8Stickers();
      Success(Cube(Pack(Numbers(s))))
  }

  /** Twenty-four stickers of one colour are accepted: there is no colour-count check. */
  lemma NoColourCountCheck()
    ensures FromString(seq(NUM_STICKERS, _ => 'W')).Success?
  {
    assert AllColourLetters(seq(NUM_STICKERS, _ => 'W'));
  }

  /** `is_solved`: equality with the packed solved state. */
  predicate IsSolved(c: Cube)
  {
    c.state == SolvedStateInt()
  }

  /** Only the solved letters give a solved cube, and the default cube is solved. */
  lemma IsSolvedLetters(s: string)
    requires FromString(s).Success?
    ensures IsSolved(FromString(s).value) <==> s == SOLVED_STATE_STR
    ensures IsSolved(SolvedCube())
  {
  }

  lemma GetSet(p: nat, i: nat, c: nat, j: nat)
    requires c < 8
    ensures GetColor(SetColor(p, i, c), j) == if i == j then c else GetColor(p, j)
  {
    if i == j {
      GetSetSame(p, i, c);
    } else {
      GetSetOther(p, i, c, j);
    }
  }

  /** `_rotate_face`: a clockwise turn of the four stickers from `start`. */
  function RotateFace(p: nat, start: nat): nat
  {
    var c0 := GetColor(p, start);
    var c1 := GetColor(p, start + 1);
    var c2 := GetColor(p, start + 2);
    var c3 := GetColor(p, start + 3);
    var s1 := SetColor(p, start, c2);
    var s2 := SetColor(s1, start + 2, c3);
    var s3 := SetColor(s2, start + 3, c1);
    SetColor(s3, start + 1, c0)
  }

  /** Sticker by sticker, the face rotation is the face cycle of the reference model. */
  lemma RotateFaceAt(p: nat, start: nat, j: nat)
    ensures GetColor(RotateFace(p, start), j) == GetColor(p, CyclePrev(FaceCycle(start), j))
  {
    var c0 := GetColor(p, start);
    var c1 := GetColor(p, start + 1);
    var c2 := GetColor(p, start + 2);
    var c3 := GetColor(p, start + 3);
    var s1 := SetColor(p, start, c2);
    var s2 := SetColor(s1, start + 2, c3);
    var s3 := SetColor(s2, start + 3, c1);
    GetSet(p, start, c2, j);
    GetSet(s1, start + 2, c3, j);
    GetSet(s2, start + 3, c1, j);
    GetSet(s3, start + 1, c0, j);
  }

  lemma RotateFaceBound(p: nat, start: nat)
    requires p < STATE_BOUND && start + 3 < NUM_STICKERS
    ensures RotateFace(p, start) < STATE_BOUND
  {
    Pow8Stickers();
    var s1 := SetColor(p, start, GetColor(p, start + 2));
    var s2 := SetColor(s1, start + 2, GetColor(p, start + 3));
    var s3 := SetColor(s2, start + 3, GetColor(p, start + 1));
    SetColorBound(p, start, GetColor(p, start + 2), NUM_STICKERS);
    SetColorBound(s1, start + 2, GetColor(p, start + 3), NUM_STICKERS);
    SetColorBound(s2, start + 3, GetColor(p, start + 1), NUM_STICKERS);
    SetColorBound(s3, start + 1, GetColor(p, start), NUM_STICKERS);
  }

  /** The R quarter turn (src/app.py:132-157): the face rotation, then the band from values read before any write. */
  function MoveR(p: nat): nat
  {
    var t0 := RotateFace(p, 8);
    var t1 := SetColor(t0, 1, GetColor(p, 15));
    var t2 := SetColor(t1, 3, GetColor(p, 13));
    var t3 := SetColor(t2, 5, GetColor(p, 1));
    var t4 := SetColor(t3, 7, GetColor(p, 3));
    var t5 := SetColor(t4, 21, GetColor(p, 5));
    var t6 := SetColor(t5, 23, GetColor(p, 7));
    var t7 := SetColor(t6, 15, GetColor(p, 21));
    var t8 := SetColor(t7, 13, GetColor(p, 23));
    t8
  }

  /** The U quarter turn (src/app.py:159-184): the face rotation, then the band from values read before any write. */
  function MoveU(p: nat): nat
  {
    var t0 := RotateFace(p, 0);
    var t1 := SetColor(t0, 4, GetColor(p, 8));
    var t2 := SetColor(t1, 5, GetColor(p, 9));
    var t3 := SetColor(t2, 8, GetColor(p, 12));
    var t4 := SetColor(t3, 9, GetColor(p, 13));
    var t5 := SetColor(t4, 12, GetColor(p, 16));
    var t6 := SetColor(t5, 13, GetColor(p, 17));
    var t7 := SetColor(t6, 16, GetColor(p, 4));
    var t8 := SetColor(t7, 17, GetColor(p, 5));
    t8
  }

  /** The F quarter turn (src/app.py:186-214): the face rotation, then the band from values read before any write. */
  function MoveF(p: nat): nat
  {
    var t0 := RotateFace(p, 4);
    var t1 := SetColor(t0, 2, GetColor(p, 17));
    var t2 := SetColor(t1, 3, GetColor(p, 19));
    var t3 := SetColor(t2, 8, GetColor(p, 2));
    var t4 := SetColor(t3, 10, GetColor(p, 3));
    var t5 := SetColor(t4, 20, GetColor(p, 8));
    var t6 := SetColor(t5, 21, GetColor(p, 10));
    var t7 := SetColor(t6, 17, GetColor(p, 20));
    var t8 := SetColor(t7, 19, GetColor(p, 21));
    t8
  }

  lemma MoveRAt(p: nat, j: nat)
    requires j < NUM_STICKERS
    ensures GetColor(MoveR(p), j) == GetColor(p, Prev(R, j))
  {
    var t0 := RotateFace(p, 8);
    RotateFaceAt(p, 8, j);
    var t1 := SetColor(t0, 1, GetColor(p, 15));
    GetSet(t0, 1, GetColor(p, 15), j);
    var t2 := SetColor(t1, 3, GetColor(p, 13));
    GetSet(t1, 3, GetColor(p, 13), j);
    var t3 := SetColor(t2, 5, GetColor(p, 1));
    GetSet(t2, 5, GetColor(p, 1), j);
    var t4 := SetColor(t3, 7, GetColor(p, 3));
    GetSet(t3, 7, GetColor(p, 3), j);
    var t5 := SetColor(t4, 21, GetColor(p, 5));
    GetSet(t4, 21, GetColor(p, 5), j);
    var t6 := SetColor(t5, 23, GetColor(p, 7));
    GetSet(t5, 23, GetColor(p, 7), j);
    var t7 := SetColor(t6, 15, GetColor(p, 21));
    GetSet(t6, 15, GetColor(p, 21), j);
    var t8 := SetColor(t7, 13, GetColor(p, 23));
    GetSet(t7, 13, GetColor(p, 23), j);
  }

  lemma MoveUAt(p: nat, j: nat)
    requires j < NUM_STICKERS
    ensures GetColor(MoveU(p), j) == GetColor(p, Prev(U, j))
  {
    var t0 := RotateFace(p, 0);
    RotateFaceAt(p, 0, j);
    var t1 := SetColor(t0, 4, GetColor(p, 8));
    GetSet(t0, 4, GetColor(p, 8), j);
    var t2 := SetColor(t1, 5, GetColor(p, 9));
    GetSet(t1, 5, GetColor(p, 9), j);
    var t3 := SetColor(t2, 8, GetColor(p, 12));
    GetSet(t2, 8, GetColor(p, 12), j);
    var t4 := SetColor(t3, 9, GetColor(p, 13));
    GetSet(t3, 9, GetColor(p, 13), j);
    var t5 := SetColor(t4, 12, GetColor(p, 16));
    GetSet(t4, 12, GetColor(p, 16), j);
    var t6 := SetColor(t5, 13, GetColor(p, 17));
    GetSet(t5, 13, GetColor(p, 17), j);
    var t7 := SetColor(t6, 16, GetColor(p, 4));
    GetSet(t6, 16, GetColor(p, 4), j);
    var t8 := SetColor(t7, 17, GetColor(p, 5));
    GetSet(t7, 17, GetColor(p, 5), j);
  }

  lemma MoveFAt(p: nat, j: nat)
    requires j < NUM_STICKERS
    ensures GetColor(MoveF(p), j) == GetColor(p, Prev(F, j))
  {
    var t0 := RotateFace(p, 4);
    RotateFaceAt(p, 4, j);
    var t1 := SetColor(t0, 2, GetColor(p, 17));
    GetSet(t0, 2, GetColor(p, 17), j);
    var t2 := SetColor(t1, 3, GetColor(p, 19));
    GetSet(t1, 3, GetColor(p, 19), j);
    var t3 := SetColor(t2, 8, GetColor(p, 2));
    GetSet(t2, 8, GetColor(p, 2), j);
    var t4 := SetColor(t3, 10, GetColor(p, 3));
    GetSet(t3, 10, GetColor(p, 3), j);
    var t5 := SetColor(t4, 20, GetColor(p, 8));
    GetSet(t4, 20, GetColor(p, 8), j);
    var t6 := SetColor(t5, 21, GetColor(p, 10));
    GetSet(t5, 21, GetColor(p, 10), j);
    var t7 := SetColor(t6, 17, GetColor(p, 20));
    GetSet(t6, 17, GetColor(p, 20), j);
    var t8 := SetColor(t7, 19, GetColor(p, 21));
    GetSet(t7, 19, GetColor(p, 21), j);
  }

  lemma MoveRBound(p: nat)
    requires p < STATE_BOUND
    ensures MoveR(p) < STATE_BOUND
  {
    Pow8Stickers();
    var t0 := RotateFace(p, 8);
    RotateFaceBound(p, 8);
    var t1 := SetColor(t0, 1, GetColor(p, 15));
    SetColorBound(t0, 1, GetColor(p, 15), NUM_STICKERS);
    var t2 := SetColor(t1, 3, GetColor(p, 13));
    SetColorBound(t1, 3, GetColor(p, 13), NUM_STICKERS);
    var t3 := SetColor(t2, 5, GetColor(p, 1));
    SetColorBound(t2, 5, GetColor(p, 1), NUM_STICKERS);
    var t4 := SetColor(t3, 7, GetColor(p, 3));
    SetColorBound(t3, 7, GetColor(p, 3), NUM_STICKERS);
    var t5 := SetColor(t4, 21, GetColor(p, 5));
    SetColorBound(t4, 21, GetColor(p, 5), NUM_STICKERS);
    var t6 := SetColor(t5, 23, GetColor(p, 7));
    SetColorBound(t5, 23, GetColor(p, 7), NUM_STICKERS);
    var t7 := SetColor(t6, 15, GetColor(p, 21));
    SetColorBound(t6, 15, GetColor(p, 21), NUM_STICKERS);
    var t8 := SetColor(t7, 13, GetColor(p, 23));
    SetColorBound(t7, 13, GetColor(p, 23), NUM_STICKERS);
  }

  lemma MoveUBound(p: nat)
    requires p < STATE_BOUND
    ensures MoveU(p) < STATE_BOUND
  {
    Pow8Stickers();
    var t0 := RotateFace(p, 0);
    RotateFaceBound(p, 0);
    var t1 := SetColor(t0, 4, GetColor(p, 8));
    SetColorBound(t0, 4, GetColor(p, 8), NUM_STICKERS);
    var t2 := SetColor(t1, 5, GetColor(p, 9));
    SetColorBound(t1, 5, GetColor(p, 9), NUM_STICKERS);
    var t3 := SetColor(t2, 8, GetColor(p, 12));
    SetColorBound(t2, 8, GetColor(p, 12), NUM_STICKERS);
    var t4 := SetColor(t3, 9, GetColor(p, 13));
    SetColorBound(t3, 9, GetColor(p, 13), NUM_STICKERS);
    var t5 := SetColor(t4, 12, GetColor(p, 16));
    SetColorBound(t4, 12, GetColor(p, 16), NUM_STICKERS);
    var t6 := SetColor(t5, 13, GetColor(p, 17));
    SetColorBound(t5, 13, GetColor(p, 17), NUM_STICKERS);
    var t7 := SetColor(t6, 16, GetColor(p, 4));
    SetColorBound(t6, 16, GetColor(p, 4), NUM_STICKERS);
    var t8 := SetColor(t7, 17, GetColor(p, 5));
    SetColorBound(t7, 17, GetColor(p, 5), NUM_STICKERS);
  }

  lemma MoveFBound(p: nat)
    requires p < STATE_BOUND
    ensures MoveF(p) < STATE_BOUND
  {
    Pow8Stickers();
    var t0 := RotateFace(p, 4);
    RotateFaceBound(p, 4);
    var t1 := SetColor(t0, 2, GetColor(p, 17));
    SetColorBound(t0, 2, GetColor(p, 17), NUM_STICKERS);
    var t2 := SetColor(t1, 3, GetColor(p, 19));
    SetColorBound(t1, 3, GetColor(p, 19), NUM_STICKERS);
    var t3 := SetColor(t2, 8, GetColor(p, 2));
    SetColorBound(t2, 8, GetColor(p, 2), NUM_STICKERS);
    var t4 := SetColor(t3, 10, GetColor(p, 3));
    SetColorBound(t3, 10, GetColor(p, 3), NUM_STICKERS);
    var t5 := SetColor(t4, 20, GetColor(p, 8));
    SetColorBound(t4, 20, GetColor(p, 8), NUM_STICKERS);
    var t6 := SetColor(t5, 21, GetColor(p, 10));
    SetColorBound(t5, 21, GetColor(p, 10), NUM_STICKERS);
    var t7 := SetColor(t6, 17, GetColor(p, 20));
    SetColorBound(t6, 17, GetColor(p, 20), NUM_STICKERS);
    var t8 := SetColor(t7, 19, GetColor(p, 21));
    SetColorBound(t7, 19, GetColor(p, 21), NUM_STICKERS);
  }
  /** One clockwise quarter turn of a face on a packed state. */
  function QuarterTurn(p: nat, g: Generator): nat
  {
    match g
    case R => MoveR(p)
    case U => MoveU(p)
    case F => MoveF(p)
  }

  /** The packed engine turns exactly like the reference model, sticker by sticker. */
  lemma QuarterTurnStickers(p: nat, g: Generator)
    ensures Stickers(QuarterTurn(p, g)) == Turn(Stickers(p), g)
  {
    forall j | 0 <= j < NUM_STICKERS
      ensures Stickers(QuarterTurn(p, g))[j] == Turn(Stickers(p), g)[j]
    {
      TurnAt(Stickers(p), g, j);
      match g
      case R => MoveRAt(p, j);
      case U => MoveUAt(p, j);
      case F => MoveFAt(p, j);
    }
  }

  lemma QuarterTurnBound(p: nat, g: Generator)
    requires p < STATE_BOUND
    ensures QuarterTurn(p, g) < STATE_BOUND
  {
    match g
    case R => MoveRBound(p);
    case U => MoveUBound(p);
    case F => MoveFBound(p);
  }

  /** A quarter turn keeps every sticker outside its three cycles. */
  lemma QuarterTurnLocal(p: nat, g: Generator, j: nat)
    requires j < NUM_STICKERS && j !in Moved(g)
    ensures GetColor(QuarterTurn(p, g), j) == GetColor(p, j)
  {
    QuarterTurnStickers(p, g);
    TurnLocal(Stickers(p), g, j);
  }

  /** `_apply_single_move_packed`: "R", "U" and "F" turn their face; any other string raises. */
  function SingleMove(p: nat, m: string): (r: Result<nat, ValueError>)
    ensures r.Success? <==> m == "R" || m == "U" || m == "F"
    ensures r.Failure? ==> r.error == ValueError("Invalid move: " + m)
  {
    if m == "R" then Success(MoveR(p))
    else if m == "U" then Success(MoveU(p))
    else if m == "F" then Success(MoveF(p))
    else Failure(ValueError("Invalid move: " + m))
  }

  lemma SingleMoveFace(p: nat, g: Generator)
    ensures SingleMove(p, [FaceLetter(g)]) == Success(QuarterTurn(p, g))
  {
  }

  /** `n` calls of the single-move helper in a row; the first failure is raised. */
  function RepeatSingle(p: nat, m: string, n: nat): Result<nat, ValueError>
    decreases n
  {
    if n == 0 then Success(p)
    else
      match SingleMove(p, m)
      case Failure(e) => Failure(e)
      case Success(q) => RepeatSingle(q, m, n - 1)
  }

  predicate EndsWith(s: string, ch: char)
  {
    |s| > 0 && s[|s| - 1] == ch
  }

  /** `move[:-1]` for a token ending in `'` or `2`, the token itself otherwise. */
  function Stem(move: string): string
  {
    if EndsWith(move, '\'') || EndsWith(move, '2') then move[..|move| - 1] else move
  }

  /** How many times the stem is applied: 3 after `'`, 2 after `2`, else 1. */
  function Repeats(move: string): nat
  {
    if EndsWith(move, '\'') then 3 else if EndsWith(move, '2') then 2 else 1
  }

  /**
   * `apply_move`: a token ending in `'` is its stem three times, one ending
   * in `2` its stem twice, anything else one single move; the cube itself is
   * left as it was and a new one is returned.
   */
  function ApplyMove(c: Cube, move: string): Result<Cube, ValueError>
  {
    match RepeatSingle(c.state, Stem(move), Repeats(move))
    case Success(q) => Success(Cube(q))
    case Failure(e) => Failure(e)
  }

  /** `k` quarter turns of one face on a packed state. */
  function QuarterTurns(p: nat, g: Generator, k: nat): nat
  {
    if k == 0 then p else QuarterTurn(QuarterTurns(p, g, k - 1), g)
  }

  /** The packed effect of a parsed move. */
  function PackedApply(p: nat, m: Move): nat
  {
    QuarterTurns(p, m.face, Turns(m.suffix))
  }

  function PackedApplySeq(p: nat, ms: seq<Move>): nat
    decreases |ms|
  {
    if ms == [] then p else PackedApplySeq(PackedApply(p, ms[0]), ms[1..])
  }

  lemma {:induction false} QuarterTurnsFirst(p: nat, g: Generator, n: nat)
    requires n > 0
    ensures QuarterTurns(p, g, n) == QuarterTurns(QuarterTurn(p, g), g, n - 1)
  {
    if n > 1 {
      QuarterTurnsFirst(p, g, n - 1);
    }
  }

  lemma {:induction false} RepeatSingleTurns(p: nat, g: Generator, n: nat)
    ensures RepeatSingle(p, [FaceLetter(g)], n) == Success(QuarterTurns(p, g, n))
    decreases n
  {
    if n > 0 {
      SingleMoveFace(p, g);
      RepeatSingleTurns(QuarterTurn(p, g), g, n - 1);
      QuarterTurnsFirst(p, g, n);
    }
  }

  /** Each of the nine tokens applies the packed effect of its move. */
  lemma ApplyMoveToken(c: Cube, m: Move)
    ensures ApplyMove(c, Token(m)) == Success(Cube(PackedApply(c.state, m)))
  {
    var t := Token(m);
    var stem := [FaceLetter(m.face)];
    RepeatSingleTurns(c.state, m.face, Turns(m.suffix));
    match m.suffix
    case Quarter =>
      assert t == stem;
    case Prime =>
      assert EndsWith(t, '\'') && t[..|t| - 1] == stem;
    case Double =>
      assert !EndsWith(t, '\'') && EndsWith(t, '2') && t[..|t| - 1] == stem;
  }

  lemma {:induction false} RepeatSingleFails(p: nat, m: string, n: nat)
    requires n > 0 && m != "R" && m != "U" && m != "F"
    ensures RepeatSingle(p, m, n) == Failure(ValueError("Invalid move: " + m))
  {
  }

  /** A string whose stem is a face letter is one of the nine tokens. */
  lemma StemToken(move: string)
    requires Stem(move) == "R" || Stem(move) == "U" || Stem(move) == "F"
    ensures move in PossibleTokens()
  {
    PossibleTokensSpelled();
    var stem := Stem(move);
    if EndsWith(move, '\'') {
      assert move == stem + "'";
      assert move == "R'" || move == "U'" || move == "F'";
    } else if EndsWith(move, '2') {
      assert move == stem + "2";
      assert move == "R2" || move == "U2" || move == "F2";
    }
  }

  /** `apply_move` succeeds exactly on the nine tokens and raises ValueError on every other string. */
  lemma ApplyMoveAccepts(c: Cube, move: string)
    ensures ApplyMove(c, move).Success? <==> move in PossibleTokens()
    ensures ApplyMove(c, move).Failure? ==> ApplyMove(c, move) == Failure(ValueError("Invalid move: " + Stem(move)))
  {
    PossibleTokensSpelled();
    var ts := PossibleTokens();
    if move in ts {
      var k :| 0 <= k < 9 && ts[k] == move;
      ApplyMoveToken(c, PossibleMoves()[k]);
    } else {
      if Stem(move) == "R" || Stem(move) == "U" || Stem(move) == "F" {
        StemToken(move);
      }
      RepeatSingleFails(c.state, Stem(move), Repeats(move));
    }
  }

  lemma {:induction false} QuarterTurnsStickers(p: nat, g: Generator, k: nat)
    ensures Stickers(QuarterTurns(p, g, k)) == TurnPow(Stickers(p), g, k)
  {
    if k > 0 {
      QuarterTurnsStickers(p, g, k - 1);
      QuarterTurnStickers(QuarterTurns(p, g, k - 1), g);
    }
  }

  lemma {:induction false} QuarterTurnsBound(p: nat, g: Generator, k: nat)
    requires p < STATE_BOUND
    ensures QuarterTurns(p, g, k) < STATE_BOUND
  {
    if k > 0 {
      QuarterTurnsBound(p, g, k - 1);
      QuarterTurnBound(QuarterTurns(p, g, k - 1), g);
    }
  }

  /** A packed move has the reference effect of the move on the stickers. */
  lemma PackedApplyStickers(p: nat, m: Move)
    ensures Stickers(PackedApply(p, m)) == Moves.Apply(Stickers(p), m)
  {
    QuarterTurnsStickers(p, m.face, Turns(m.suffix));
  }

  lemma {:induction false} PackedApplySeqStickers(p: nat, ms: seq<Move>)
    ensures Stickers(PackedApplySeq(p, ms)) == ApplySeq(Stickers(p), ms)
    decreases |ms|
  {
    if ms != [] {
      PackedApplyStickers(p, ms[0]);
      PackedApplySeqStickers(PackedApply(p, ms[0]), ms[1..]);
    }
  }

  lemma {:induction false} PackedApplySeqBound(p: nat, ms: seq<Move>)
    requires p < STATE_BOUND
    ensures PackedApplySeq(p, ms) < STATE_BOUND
    decreases |ms|
  {
    if ms != [] {
      QuarterTurnsBound(p, ms[0].face, Turns(ms[0].suffix));
      PackedApplySeqBound(PackedApply(p, ms[0]), ms[1..]);
    }
  }

  lemma {:induction false} PackedApplySeqAppend(p: nat, a: seq<Move>, b: seq<Move>)
    ensures PackedApplySeq(p, a + b) == PackedApplySeq(PackedApplySeq(p, a), b)
    decreases |a|
  {
    if a == [] {
      assert a + b == b;
    } else {
      assert (a + b)[0] == a[0] && (a + b)[1..] == a[1..] + b;
      PackedApplySeqAppend(PackedApply(p, a[0]), a[1..], b);
    }
  }

  lemma PackedApplySeqSnoc(p: nat, a: seq<Move>, m: Move)
    ensures PackedApplySeq(p, a + [m]) == PackedApply(PackedApplySeq(p, a), m)
  {
    PackedApplySeqAppend(p, a, [m]);
    assert [m][1..] == [];
  }

  /** On a 72-bit state, each face turned four times gives back the same number. */
  lemma PackedFourTurns(p: nat, g: Generator)
    requires p < STATE_BOUND
    ensures QuarterTurns(p, g, 4) == p
  {
    QuarterTurnsStickers(p, g, 4);
    FourTurnsIdentity(Stickers(p), g);
    QuarterTurnsBound(p, g, 4);
    StickersInjective(QuarterTurns(p, g, 4), p);
  }

  /** On a 72-bit state, a move followed by its inverse gives back the same number. */
  lemma PackedInverse(p: nat, m: Move)
    requires p < STATE_BOUND
    ensures PackedApply(PackedApply(p, m), InverseMove(m)) == p
  {
    var q := PackedApply(PackedApply(p, m), InverseMove(m));
    PackedApplyStickers(p, m);
    PackedApplyStickers(PackedApply(p, m), InverseMove(m));
    ApplyInverse(Stickers(p), m);
    QuarterTurnsBound(p, m.face, Turns(m.suffix));
    QuarterTurnsBound(PackedApply(p, m), m.face, Turns(InverseMove(m).suffix));
    StickersInjective(q, p);
  }

  /** Replaying a path and then its inverse path gives back the same 72-bit state. */
  lemma PackedUndoPath(p: nat, ms: seq<Move>)
    requires p < STATE_BOUND
    ensures PackedApplySeq(PackedApplySeq(p, ms), InvertPath(ms)) == p
  {
    var q := PackedApplySeq(PackedApplySeq(p, ms), InvertPath(ms));
    PackedApplySeqStickers(p, ms);
    PackedApplySeqStickers(PackedApplySeq(p, ms), InvertPath(ms));
    UndoPath(Stickers(p), ms);
    PackedApplySeqBound(p, ms);
    PackedApplySeqBound(PackedApplySeq(p, ms), InvertPath(ms));
    StickersInjective(q, p);
  }

  /** A move only rearranges the colour numbers of the 24 groups. */
  lemma PackedKeepsColours(p: nat, m: Move)
    ensures multiset(Stickers(PackedApply(p, m))) == multiset(Stickers(p))
  {
    PackedApplyStickers(p, m);
    ApplyKeepsColours(Stickers(p), m);
  }
}
