/**
 * The six sticker colours and their letters. Colour numbers are the ones both
 * implementations use: W=0, Y=1, R=2, O=3, B=4, G=5 (src/app.py:20-23,
 * src/solver.c:8-12).
 */
module Colours {
  import opened Results

  const NUM_COLOURS: nat := 6

  /** The colour letters in colour-number order; also the order colour counts are checked in. */
  const LETTERS: string := "WYROBG"

  predicate IsColourLetter(ch: char)
  {
    ch in LETTERS
  }

  /** Dictionary lookup of a colour letter; a missing key is a failure. */
  function ColourNumber(ch: char): (r: Option<nat>)
    ensures r.Some? <==> IsColourLetter(ch)
    ensures r.Some? ==> r.value < NUM_COLOURS && LETTERS[r.value] == ch
  {
    match ch
    case 'W' => Some(0)
    case 'Y' => Some(1)
    case 'R' => Some(2)
    case 'O' => Some(3)
    case 'B' => Some(4)
    case 'G' => Some(5)
    case _ => None
  }

  /** Reverse lookup of a colour number; numbers 6 and above have no letter. */
  function ColourLetter(n: nat): (r: Option<char>)
    ensures r.Some? <==> n < NUM_COLOURS
    ensures r.Some? ==> ColourNumber(r.value) == Some(n)
  {
    if n < NUM_COLOURS then Some(LETTERS[n]) else None
  }
}
