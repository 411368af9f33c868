/**
 * The two helpers nested in the Python solver: the token inverse used to
 * join the two half-paths, and the pass that merges consecutive moves of
 * the same face (src/app.py:368-390).
 */
module PySimplify {
  import opened Facelets
  import opened Moves
  import opened Packing
  import opened PyCube

  /** `get_inverse_move`: drop a trailing `'`, keep a `2` move, otherwise append `'`. */
  function GetInverseMove(move: string): string
  {
    if EndsWith(move, '\'') then [move[0]]
    else if EndsWith(move, '2') then move
    else move + "'"
  }

  /** On the nine tokens, the string inverse spells the inverse move. */
  lemma GetInverseMoveToken(m: Move)
    ensures GetInverseMove(Token(m)) == Token(InverseMove(m))
  {
    match m.suffix
    case Quarter =>
      assert !EndsWith(Token(m), '\'') && !EndsWith(Token(m), '2');
    case Prime =>
      assert EndsWith(Token(m), '\'');
    case Double =>
      assert !EndsWith(Token(m), '\'') && EndsWith(Token(m), '2');
  }

  /** The string inverse maps the nine tokens onto themselves and undoes itself there. */
  lemma GetInverseMoveInvolution(t: string)
    requires t in PossibleTokens()
    ensures GetInverseMove(t) in PossibleTokens()
    ensures GetInverseMove(GetInverseMove(t)) == t
  {
    var k :| 0 <= k < 9 && PossibleTokens()[k] == t;
    var m := PossibleMoves()[k];
    GetInverseMoveToken(m);
    GetInverseMoveToken(InverseMove(m));
    InverseInvolution(m);
    PossibleMovesComplete(InverseMove(m));
    var k2 :| 0 <= k2 < 9 && PossibleMoves()[k2] == InverseMove(m);
    assert PossibleTokens()[k2] == Token(InverseMove(m));
  }

  /** `res[-1][1:] or "1"` and `to_val`: the quarter-turn count a token's suffix stands for. */
  function ToVal(x: string): nat
  {
    if x == "2" then 2 else if x == "'" then 3 else 1
  }

  function SuffixOrOne(token: string): string
    requires token != []
  {
    if token[1..] == [] then "1" else token[1..]
  }

  /** Reading the suffix of a token back gives the turns of its move. */
  lemma ToValTurns(m: Move)
    ensures ToVal(SuffixOrOne(Token(m))) == Turns(m.suffix)
  {
    match m.suffix
    case Quarter =>
    case Prime => assert Token(m)[1..] == "'";
    case Double => assert Token(m)[1..] == "2";
  }

  /** The move that replaces two merged moves: one move, or none when they cancel. */
  function Combined(f: Generator, val: nat): (ms: seq<Move>)
    requires val < 4
    ensures |ms| <= 1 && forall i :: 0 <= i < |ms| ==> ms[i].face == f
  {
    if val == 1 then [Move(f, Quarter)]
    else if val == 2 then [Move(f, Double)]
    else if val == 3 then [Move(f, Prime)]
    else []
  }

  /** One step of the merging pass: push `m` on the result stack, merging it with a top of the same face. */
  function Push(res: seq<Move>, m: Move): seq<Move>
  {
    if res != [] && res[|res| - 1].face == m.face then
      res[..|res| - 1] + Combined(m.face, (Turns(res[|res| - 1].suffix) + Turns(m.suffix)) % 4)
    else
      res + [m]
  }

  /** The result of the merging pass on `ms`. */
  function Simplified(ms: seq<Move>): seq<Move>
    decreases |ms|
  {
    if ms == [] then [] else Push(Simplified(ms[..|ms| - 1]), ms[|ms| - 1])
  }

  lemma PushNoRepeat(res: seq<Move>, m: Move)
    requires NoRepeatedFace(res)
    ensures NoRepeatedFace(Push(res, m))
    ensures |Push(res, m)| <= |res| + 1
  {
  }

  /** The merged list never has two consecutive moves of the same face. */
  lemma {:induction false} SimplifiedNoRepeat(ms: seq<Move>)
    ensures NoRepeatedFace(Simplified(ms))
    ensures |Simplified(ms)| <= |ms|
    decreases |ms|
  {
    if ms != [] {
      SimplifiedNoRepeat(ms[..|ms| - 1]);
      PushNoRepeat(Simplified(ms[..|ms| - 1]), ms[|ms| - 1]);
    }
  }

  /** Pushing a move has the effect of applying it. */
  lemma PushEffect<T>(s: seq<T>, res: seq<Move>, m: Move)
    requires |s| == NUM_STICKERS
    ensures ApplySeq(s, Push(res, m)) == Moves.Apply(ApplySeq(s, res), m)
  {
    if res != [] && res[|res| - 1].face == m.face {
      var popped := res[..|res| - 1];
      var last := res[|res| - 1];
      var x := ApplySeq(s, popped);
      var val := (Turns(last.suffix) + Turns(m.suffix)) % 4;
      assert res == popped + [last];
      ApplySeqSnoc(s, popped, last);
      SameFaceCompose(x, m.face, last.suffix, m.suffix);
      if val == 0 {
        assert popped + Combined(m.face, val) == popped;
      } else {
        ApplySeqSnoc(s, popped, Combined(m.face, val)[0]);
      }
    } else {
      ApplySeqSnoc(s, res, m);
    }
  }

  /** Merging keeps the effect of the list on every sticker sequence. */
  lemma {:induction false} SimplifiedEffect<T>(s: seq<T>, ms: seq<Move>)
    requires |s| == NUM_STICKERS
    ensures ApplySeq(s, Simplified(ms)) == ApplySeq(s, ms)
    decreases |ms|
  {
    if ms != [] {
      var init := ms[..|ms| - 1];
      var m := ms[|ms| - 1];
      SimplifiedEffect(s, init);
      PushEffect(s, Simplified(init), m);
      assert ms == init + [m];
      ApplySeqSnoc(s, init, m);
    }
  }

  /** Merging keeps the effect of the list on a packed 72-bit state. */
  lemma PackedSimplifiedEffect(p: nat, ms: seq<Move>)
    requires p < STATE_BOUND
    ensures PackedApplySeq(p, Simplified(ms)) == PackedApplySeq(p, ms)
  {
    PackedApplySeqStickers(p, Simplified(ms));
    PackedApplySeqStickers(p, ms);
    SimplifiedEffect(Stickers(p), ms);
    PackedApplySeqBound(p, Simplified(ms));
    PackedApplySeqBound(p, ms);
    StickersInjective(PackedApplySeq(p, Simplified(ms)), PackedApplySeq(p, ms));
  }

  /** A list without consecutive same-face moves is left as it is, so merging twice is merging once. */
  lemma {:induction false} SimplifiedFixed(ms: seq<Move>)
    requires NoRepeatedFace(ms)
    ensures Simplified(ms) == ms
    decreases |ms|
  {
    if ms != [] {
      var init := ms[..|ms| - 1];
      assert NoRepeatedFace(init);
      SimplifiedFixed(init);
      assert ms == init + [ms[|ms| - 1]];
    }
  }

  lemma SimplifiedIdempotent(ms: seq<Move>)
    ensures Simplified(Simplified(ms)) == Simplified(ms)
  {
    SimplifiedNoRepeat(ms);
    SimplifiedFixed(Simplified(ms));
  }

  /** `simplify_moves`: a stack pass over the list, popping the top when the next move turns the same face. */
  method SimplifyMoves(moves: seq<Move>) returns (res: seq<Move>)
    ensures res == Simplified(moves)
    ensures NoRepeatedFace(res) && |res| <= |moves|
  {
    SimplifiedNoRepeat(moves);
    if moves == [] {
      return moves;
    }
    res := [];
    for i := 0 to |moves|
      invariant res == Simplified(moves[..i])
    {
      var m := moves[i];
      assert moves[..i + 1][..i] == moves[..i];
      assert Simplified(moves[..i + 1]) == Push(res, m);
      ghost var pushed := Push(res, m);
      if res != [] && res[|res| - 1].face == m.face {
        var f := m.face;
        var val := (Turns(res[|res| - 1].suffix) + Turns(m.suffix)) % 4;
        res := res[..|res| - 1];
        ghost var popped := res;
        if val == 1 {
          res := res + [Move(f, Quarter)];
        } else if val == 2 {
          res := res + [Move(f, Double)];
        } else if val == 3 {
          res := res + [Move(f, Prime)];
        }
        assert res == popped + Combined(f, val);
      } else {
        res := res + [m];
      }
      assert res == pushed;
    }
    assert moves[..|moves|] == moves;
  }
}
