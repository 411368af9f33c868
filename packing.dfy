/**
 * The Python engine's packed cube state: one natural number holding 24
 * three-bit groups, sticker 0 in the least significant group
 * (src/app.py:26-39, src/app.py:94-102).
 *
 * A right shift by 3*i is i successive shifts by 3, and on a non-negative
 * number a shift by 3 is a floor division by 8, so the bit-field accessors
 * are stated digit by digit in base 8.
 */
module Packing {
  import opened Results
  import opened Colours
  import opened Facelets

  function Pow8(n: nat): (r: nat)
    ensures r >= 1
  {
    if n == 0 then 1 else 8 * Pow8(n - 1)
  }

  /** One more than the largest packed state: 24 stickers of 3 bits, 2^72. */
  const STATE_BOUND: nat := 0x1_0000_0000_0000_0000_00

  /** Eight to the 24th is two to the 72nd: a packed state fits in 72 bits. */
  lemma Pow8Stickers()
    ensures Pow8(NUM_STICKERS) == STATE_BOUND
  {
    assert Pow8(4) == 0x1000 by {
      assert Pow8(1) == 8 && Pow8(2) == 64 && Pow8(3) == 512;
    }
    assert Pow8(8) == 0x100_0000 by {
      assert Pow8(5) == 0x8000 && Pow8(6) == 0x4_0000 && Pow8(7) == 0x20_0000;
    }
    Pow8Add(8, 8);
    Pow8Add(16, 8);
  }

  lemma {:induction false} Pow8Add(a: nat, b: nat)
    ensures Pow8(a + b) == Pow8(a) * Pow8(b)
  {
    if b > 0 {
      Pow8Add(a, b - 1);
      assert Pow8(a + b) == 8 * Pow8(a + b - 1);
    }
  }

  /** `(p >> (3 * i)) & 0b111`: the colour number in group i. */
  function GetColor(p: nat, i: nat): (c: nat)
    ensures c < 8
  {
    if i == 0 then p % 8 else GetColor(p / 8, i - 1)
  }

  /**
   * `p & ~(0b111 << (3 * i)) | (c << (3 * i))` for a colour c below 8:
   * group i is cleared, then c is written into it.
   */
  function SetColor(p: nat, i: nat, c: nat): nat
    requires c < 8
  {
    if i == 0 then p / 8 * 8 + c else p % 8 + 8 * SetColor(p / 8, i - 1, c)
  }

  /** Reading back a group that was just written gives the written colour. */
  lemma {:induction false} GetSetSame(p: nat, i: nat, c: nat)
    requires c < 8
    ensures GetColor(SetColor(p, i, c), i) == c
  {
    if i > 0 {
      GetSetSame(p / 8, i - 1, c);
      assert SetColor(p, i, c) / 8 == SetColor(p / 8, i - 1, c);
    }
  }

  /** Writing one group leaves every other group as it was. */
  lemma {:induction false} GetSetOther(p: nat, i: nat, c: nat, j: nat)
    requires c < 8 && i != j
    ensures GetColor(SetColor(p, i, c), j) == GetColor(p, j)
  {
    if i == 0 {
      assert SetColor(p, i, c) / 8 == p / 8;
    } else if j == 0 {
      assert SetColor(p, i, c) % 8 == p % 8;
    } else {
      GetSetOther(p / 8, i - 1, c, j - 1);
      assert SetColor(p, i, c) / 8 == SetColor(p / 8, i - 1, c);
    }
  }

  /** Writing a group below n keeps a number below 8^n. */
  lemma {:induction false} SetColorBound(p: nat, i: nat, c: nat, n: nat)
    requires c < 8 && i < n && p < Pow8(n)
    ensures SetColor(p, i, c) < Pow8(n)
  {
    if i > 0 {
      SetColorBound(p / 8, i - 1, c, n - 1);
    }
  }

  /** Groups at or above n of a number below 8^n are empty. */
  lemma {:induction false} GetColorHigh(p: nat, n: nat, j: nat)
    requires p < Pow8(n) && n <= j
    ensures GetColor(p, j) == 0
  {
    if j > 0 {
      GetColorHigh(p / 8, if n > 0 then n - 1 else 0, j - 1);
    }
  }

  /** The number whose base-8 digits, least significant first, are `cs`. */
  function Pack(cs: seq<nat>): nat
    requires forall k :: 0 <= k < |cs| ==> cs[k] < 8
  {
    if cs == [] then 0 else cs[0] + 8 * Pack(cs[1..])
  }

  lemma {:induction false} PackBound(cs: seq<nat>)
    requires forall k :: 0 <= k < |cs| ==> cs[k] < 8
    ensures Pack(cs) < Pow8(|cs|)
  {
    if cs != [] {
      PackBound(cs[1..]);
    }
  }

  /** Group j of a packed sequence is its j-th element. */
  lemma {:induction false} PackGet(cs: seq<nat>, j: nat)
    requires forall k :: 0 <= k < |cs| ==> cs[k] < 8
    requires j < |cs|
    ensures GetColor(Pack(cs), j) == cs[j]
  {
    if j > 0 {
      PackGet(cs[1..], j - 1);
    }
  }

  /** A colour or-ed into the next, still empty, group is added to the value. */
  lemma {:induction false} PackSnoc(cs: seq<nat>, c: nat)
    requires forall k :: 0 <= k < |cs| ==> cs[k] < 8
    requires c < 8
    ensures Pack(cs + [c]) == Pack(cs) + c * Pow8(|cs|)
  {
    if cs == [] {
      assert [c][1..] == [];
    } else {
      assert (cs + [c])[1..] == cs[1..] + [c];
      PackSnoc(cs[1..], c);
    }
  }

  /** The first n groups of a number. */
  function Digits(p: nat, n: nat): (cs: seq<nat>)
    ensures |cs| == n && forall k :: 0 <= k < n ==> cs[k] == GetColor(p, k)
  {
    seq(n, k requires 0 <= k => GetColor(p, k))
  }

  /** A number below 8^n is the packing of its first n groups. */
  lemma {:induction false} PackDigits(p: nat, n: nat)
    requires p < Pow8(n)
    ensures Pack(Digits(p, n)) == p
  {
    if n > 0 {
      PackDigits(p / 8, n - 1);
      assert Digits(p, n)[1..] == Digits(p / 8, n - 1);
    }
  }

  /** The 24 colour numbers held by a packed state. */
  function Stickers(p: nat): (s: seq<nat>)
    ensures |s| == NUM_STICKERS
  {
    Digits(p, NUM_STICKERS)
  }

  /** Two packed states below 8^24 with the same stickers are the same number. */
  lemma StickersInjective(p: nat, q: nat)
    requires p < STATE_BOUND && q < STATE_BOUND
    requires Stickers(p) == Stickers(q)
    ensures p == q
  {
    Pow8Stickers();
    PackDigits(p, NUM_STICKERS);
    PackDigits(q, NUM_STICKERS);
  }

  predicate AllColourLetters(s: string)
  {
    forall k :: 0 <= k < |s| ==> IsColourLetter(s[k])
  }

  /** The colour numbers of a string of colour letters. */
  function Numbers(s: string): (cs: seq<nat>)
    requires AllColourLetters(s)
    ensures |cs| == |s| && forall k :: 0 <= k < |s| ==> cs[k] < NUM_COLOURS && LETTERS[cs[k]] == s[k]
  {
    seq(|s|, k requires 0 <= k < |s| => ColourNumber(s[k]).value)
  }

  /** A missing dictionary key, carrying the key looked up. */
  datatype KeyError<K> = KeyError(key: K)

  /**
   * `_pack_state`: looks each letter up and or-s its colour number into the
   * next group; a letter outside the table stops it with a KeyError.
   */
  method PackState(s: string) returns (r: Result<nat, KeyError<char>>)
    ensures r.Success? <==> AllColourLetters(s)
    ensures r.Success? ==> r.value == Pack(Numbers(s))
    ensures r.Failure? ==>
      exists k :: 0 <= k < |s| && AllColourLetters(s[..k]) && !IsColourLetter(s[k]) && r.error == KeyError(s[k])
  {
    var packed: nat := 0;
    var i := 0;
    while i < |s|
      invariant 0 <= i <= |s|
      invariant AllColourLetters(s[..i])
      invariant packed == Pack(Numbers(s[..i]))
    {
      var n := ColourNumber(s[i]);
      if n.None? {
        return Failure(KeyError(s[i]));
      }
      assert s[..i + 1] == s[..i] + [s[i]];
      assert Numbers(s[..i + 1]) == Numbers(s[..i]) + [n.value];
      PackSnoc(Numbers(s[..i]), n.value);
      // group i of `packed` is still empty, so or-ing the shifted colour in adds it
      packed := packed + n.value * Pow8(i);
      i := i + 1;
    }
    assert s[..i] == s;
    return Success(packed);
  }

  /** Every one of the 24 groups holds a colour number with a letter. */
  predicate Decodable(p: nat)
  {
    forall k :: 0 <= k < NUM_STICKERS ==> GetColor(p, k) < NUM_COLOURS
  }

  /** The 24 colour letters of a decodable state. */
  function Letters(p: nat): (s: string)
    requires Decodable(p)
    ensures |s| == NUM_STICKERS
  {
    seq(NUM_STICKERS, k requires 0 <= k < NUM_STICKERS => LETTERS[GetColor(p, k)])
  }

  /**
   * `_unpack_state`: extracts the 24 groups and looks each colour number up;
   * a number without a letter (6 or 7) stops it with a KeyError.
   */
  method UnpackState(p: nat) returns (r: Result<string, KeyError<nat>>)
    ensures r.Success? <==> Decodable(p)
    ensures r.Success? ==> r.value == Letters(p)
    ensures r.Failure? ==>
      exists k :: 0 <= k < NUM_STICKERS && GetColor(p, k) >= NUM_COLOURS && r.error == KeyError(GetColor(p, k))
        && (forall j :: 0 <= j < k ==> GetColor(p, j) < NUM_COLOURS)
  {
    var chars := new char[NUM_STICKERS];
    var i := 0;
    while i < NUM_STICKERS
      invariant 0 <= i <= NUM_STICKERS
      invariant forall k :: 0 <= k < i ==> GetColor(p, k) < NUM_COLOURS && chars[k] == LETTERS[GetColor(p, k)]
    {
      var c := GetColor(p, i);
      var letter := ColourLetter(c);
      if letter.None? {
        return Failure(KeyError(c));
      }
      chars[i] := letter.value;
      i := i + 1;
    }
    return Success(chars[..]);
  }

  /** Packing 24 colour letters and unpacking the result gives the letters back. */
  lemma PackThenUnpack(s: string)
    requires |s| == NUM_STICKERS && AllColourLetters(s)
    ensures Pack(Numbers(s)) < STATE_BOUND
    ensures Decodable(Pack(Numbers(s))) && Letters(Pack(Numbers(s))) == s
  {
    var cs := Numbers(s);
    PackBound(cs);
    Pow8Stickers();
    forall k | 0 <= k < NUM_STICKERS
      ensures GetColor(Pack(cs), k) == cs[k]
    {
      PackGet(cs, k);
    }
  }

  /** Unpacking a decodable 72-bit state and packing the letters gives the number back. */
  lemma UnpackThenPack(p: nat)
    requires p < STATE_BOUND && Decodable(p)
    ensures AllColourLetters(Letters(p)) && Pack(Numbers(Letters(p))) == p
  {
    Pow8Stickers();
    var s := Letters(p);
    assert Numbers(s) == Digits(p, NUM_STICKERS);
    PackDigits(p, NUM_STICKERS);
  }
}
