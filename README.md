# 2x2 cube engines and solvers, modelled in Dafny

This project models the two engines of a 2x2 cube solver:

- **The Python engine (`src/app.py`).**
  - A cube is a packed 72-bit number: 24 stickers of three bits, sticker 0 least significant.
  - Its moves read and write three-bit groups.
  - A bidirectional breadth-first search joins a path from the cube with the inverse of a path from the solved cube. A merging pass then combines consecutive moves of the same face.
  - A six-line text layout stores a cube in a file.
- **The C engine (`src/solver.c`).**
  - A cube is an array of 24 `uint8_t` colour numbers, turned in place.
  - A linear-probing hash set records visited states.
  - A growable node queue holds the search frontier.
  - A single-direction breadth-first search reads its answer back by following parent indices.

Stickers are numbered face by face: U 0-3, F 4-7, R 8-11, B 12-15, L 16-19, D 20-23.

**The shared reference model.** Both engines are proved equal to one sticker-level reference model (`Facelets`, `Moves`).
- A clockwise quarter turn of R, U or F is three disjoint 4-cycles of positions: one on the face and two on the band around it.
- The band table is the wiring of the code's assignments. For F, that is U2 <- L1 and U3 <- L3 (src/app.py:204-205, src/solver.c:155-156).
- The two engines are also related to each other index by index (`CCube.CMovePython`).

**Modules.**

| module | models |
|---|---|
| `Results`, `Colours` | the Option/Result types and the colour letters W Y R O B G = 0..5 |
| `Facelets` | quarter turns as position cycles; order four, locality, colour conservation |
| `Moves` | the nine tokens, inverse moves, replaying a move list (`ApplySeq`) |
| `Packing` | `_pack_state`, `_unpack_state`, `_get_color`, `_set_color` |
| `PyCube` | the Python `Cube`: constructor, `is_solved`, `_rotate_face`, the three single moves, `apply_move` |
| `PySimplify` | `get_inverse_move` and `simplify_moves` |
| `PySolver` | `_solve_cube_python` |
| `Layout` | `_generate_file_content_from_state` and `_parse_file_content_to_state` |
| `CCube` | `char_to_int_color`, `is_solved`, `rotate_face_cw`, `apply_single_move`, `apply_move` |
| `CVisited` | `hash_state`, `mark_visited` and the visited table |
| `CQueue` | `BFSNode`, `create_queue`, `enqueue` |
| `CBfs` | `solve_bfs`: the search loop, the move loop and path reconstruction |

**How the code is represented.**
- Python code that threads an immutable integer through reassignments becomes functions: the bit-field accessors, `_rotate_face`, the single moves and `apply_move`.
- Python loops that build a value become methods with loop invariants: packing, unpacking, `simplify_moves`, the solver and parsing.
- The C code is imperative Dafny:
  - the sticker array is an `array<uint8>` turned in place;
  - the visited table is a class over an array of entries;
  - the queue is a class whose array is replaced by a twice-as-large copy when it is full.

**Behaviour of the code worth knowing.**
- The `Cube` constructor checks only the length and the letters, not the colour counts (`PyCube.NoColourCountCheck`).
- The C `apply_move` does not reject an unknown face: a token whose first character is not R, U or F leaves the state unchanged (`CCube.CMove`). The Python engine raises `ValueError`.
- A layout line too short for the cells read from it raises `IndexError` in the code. It is modelled as the `LineTooShort` error.
- Each side of the Python search grows for at most `max_depth // 2 + 1` rounds (src/app.py:392), so a joined path has at most `2 * (max_depth // 2) + 2` moves before merging.

## Model

| member | source | states |
|---|---|---|
| Colours.ColourNumber | src/app.py:20-22 | a character has a colour number exactly when it is one of the six letters, and the number maps back to that letter |
| Colours.ColourLetter | src/app.py:23 | a colour number has a letter exactly when it is below 6, and the letter maps back to that number |
| Facelets.FaceStart | src/app.py:134 | the index of the turned face's first sticker leaves room for its four stickers |
| Facelets.TurnIsCycles | src/app.py:130-218 | a quarter turn is its face cycle followed by its two band cycles |
| Facelets.CyclesDisjoint | src/app.py:201-214 | each generator's three cycles are proper 4-cycles on the cube and pairwise disjoint, so F is two separate band 4-cycles rather than one 8-cycle |
| Facelets.TurnKeepsColours | src/app.py:130-218 | a quarter turn keeps the multiset of sticker colours |
| Facelets.TurnLocal | src/app.py:130-218 | a sticker outside the twelve positions of a turn's cycles keeps its place |
| Facelets.MovedSets | src/app.py:132-214 | R may change only 8-11, 1, 3, 5, 7, 13, 15, 21, 23; U only 0-5, 8, 9, 12, 13, 16, 17; F only 2-8, 10, 17, 19, 20, 21 |
| Facelets.MovedExactly | src/app.py:130-218 | on the identity labelling, a position changes under a turn if and only if it is in the turn's cycles |
| Facelets.PrevMoves | src/app.py:130-218 | a turn takes position i's sticker from elsewhere exactly when i is on one of its cycles |
| Facelets.MovedCount | src/app.py:130-218 | every quarter turn moves exactly 12 of the 24 stickers |
| Facelets.PrevIn | src/app.py:130-218 | on a cycle's positions, a turn steps one place back along that cycle and stays on it |
| Facelets.PrevFour | src/app.py:130-218 | stepping back four times along a turn's cycles returns every position to itself |
| Facelets.FourTurnsIdentity | src/app.py:130-218 | four quarter turns of any generator give back the original stickers |
| Facelets.TurnPowAdd | src/app.py:220-230 | a turns and then b turns of one face are a + b turns |
| Facelets.TurnPowMod | src/app.py:220-230 | only the number of turns modulo four matters |
| Facelets.TurnPowCompose | src/app.py:220-230 | a turns and then b turns of one face are (a + b) mod 4 turns |
| Facelets.CycleKeepsMultiset | src/app.py:130-218 | one 4-cycle of stickers keeps the multiset of colours |
| Moves.Token | src/app.py:236 | a token is one or two characters and starts with its face letter |
| Moves.TokenInjective | src/app.py:236 | distinct moves are spelled by distinct tokens |
| Moves.PossibleMovesComplete | src/app.py:234-236 | the move list holds every move exactly once |
| Moves.PossibleTokensSpelled | src/app.py:236 | the token list is R, R', R2, U, U', U2, F, F', F2 in that order |
| Moves.InverseMove | src/app.py:368-371 | the inverse turns the same face, and the two moves' quarter turns add up to four |
| Moves.InverseInvolution | src/app.py:368-371 | the inverse of the inverse is the move itself |
| Moves.ApplySeqAppend | src/app.py:411 | replaying a concatenation of move lists replays the first list, then the second |
| Moves.ApplySeqSnoc | src/app.py:407 | replaying a path extended by one move applies that move to the path's result |
| Moves.SameFaceCompose | src/app.py:377-387 | two moves of one face are the face turned by their quarter turns added modulo four |
| Moves.ApplyInverse | src/app.py:220-224 | a move followed by its inverse leaves every sticker sequence unchanged |
| Moves.DoubleTwice | src/app.py:225-228 | a double move applied twice leaves every sticker sequence unchanged |
| Moves.InvertPath | src/app.py:411 | the inverse path has the same length and holds the inverses of the path's moves in reverse order |
| Moves.InvertPathAppend | src/app.py:411 | inverting a path extended by a move puts that move's inverse first |
| Moves.UndoPath | src/app.py:411 | replaying a path and then its inverse path returns to the start |
| Moves.ApplySeqKeepsColours | src/app.py:220-232 | every move list keeps the multiset of sticker colours |
| Moves.ApplyKeepsColours | src/app.py:220-232 | every move keeps the multiset of sticker colours |
| Moves.TurnPowKeepsColours | src/app.py:220-230 | any number of quarter turns keeps the multiset of sticker colours |
| Packing.Pow8Stickers | src/app.py:30-31 | 24 groups of three bits span exactly 2^72 values |
| Packing.Pow8Add | src/app.py:31 | shifting by 3(a + b) bits is shifting by 3a and then by 3b |
| Packing.GetColor | src/app.py:94-95 | a group read is below 8 |
| Packing.GetSetSame | src/app.py:94-102 | reading back a group just written gives the written colour |
| Packing.GetSetOther | src/app.py:94-102 | writing one group leaves every other group unchanged |
| Packing.SetColorBound | src/app.py:97-102 | writing a group below n keeps a number below 8^n |
| Packing.GetColorHigh | src/app.py:94-95 | groups at or above n of a number below 8^n read as 0 |
| Packing.PackBound | src/app.py:26-32 | packing n colour numbers gives a number below 8^n |
| Packing.PackGet | src/app.py:26-32 | group j of a packed list is its j-th colour number |
| Packing.PackSnoc | src/app.py:28-31 | or-ing a colour into the next, still empty group adds colour * 8^i to the value |
| Packing.Digits | src/app.py:36-37 | the first n groups of a number, in order |
| Packing.PackDigits | src/app.py:34-39 | a number below 8^n is the packing of its first n groups |
| Packing.StickersInjective | src/app.py:34-39 | two 72-bit states with the same 24 groups are the same number |
| Packing.Numbers | src/app.py:29 | the colour numbers of a letter string are below 6 and map back to its letters |
| Packing.PackState | src/app.py:26-32 | packing succeeds exactly on strings of colour letters, yielding the base-8 number of their colour numbers; otherwise it raises KeyError for the first bad letter |
| Packing.UnpackState | src/app.py:34-39 | unpacking succeeds exactly when all 24 groups hold a colour number below 6, yielding their letters; otherwise it raises KeyError for the first group of 6 or 7, every earlier group holding a colour below 6 |
| Packing.PackThenUnpack | src/app.py:26-39 | 24 colour letters pack below 2^72 and unpack back to the same letters |
| Packing.UnpackThenPack | src/app.py:26-39 | a decodable 72-bit state unpacks to letters that pack back to the same number |
| PyCube.SolvedLetters | src/app.py:49-56 | the solved string is 24 colour letters |
| PyCube.SolvedStateInt | src/app.py:58 | the packed solved state is below 2^72 and unpacks to WWWW GGGG RRRR BBBB OOOO YYYY |
| PyCube.FromString | src/app.py:70-76 | construction from a string succeeds exactly on 24 colour letters; otherwise it raises the length error or the colour error with the code's messages; on success the state unpacks to the string |
| PyCube.NoColourCountCheck | src/app.py:70-76 | 24 white stickers are accepted, so colour counts are not checked |
| PyCube.IsSolvedLetters | src/app.py:79-92 | a cube built from a string is solved exactly when the string is the solved string, and the default cube is solved |
| PyCube.GetSet | src/app.py:94-102 | after a write, a group reads as the written colour if it is the written group and as before otherwise |
| PyCube.RotateFaceAt | src/app.py:104-124 | the face rotation is, group by group, the face 4-cycle a -> b -> d -> c -> a |
| PyCube.RotateFaceBound | src/app.py:104-124 | the face rotation keeps a state below 2^72 |
| PyCube.MoveRAt | src/app.py:132-157 | R sets every group from the position the reference R turn takes it from |
| PyCube.MoveUAt | src/app.py:159-184 | U sets every group from the position the reference U turn takes it from |
| PyCube.MoveFAt | src/app.py:186-214 | F sets every group from the position the reference F turn takes it from |
| PyCube.MoveRBound | src/app.py:132-157 | R keeps a state below 2^72 |
| PyCube.MoveUBound | src/app.py:159-184 | U keeps a state below 2^72 |
| PyCube.MoveFBound | src/app.py:186-214 | F keeps a state below 2^72 |
| PyCube.QuarterTurnStickers | src/app.py:130-218 | the stickers of a packed quarter turn are the reference turn of the stickers |
| PyCube.QuarterTurnBound | src/app.py:130-218 | a packed quarter turn keeps a state below 2^72 |
| PyCube.QuarterTurnLocal | src/app.py:130-218 | a packed quarter turn keeps every group outside its twelve positions |
| PyCube.SingleMove | src/app.py:130-218 | the single-move helper succeeds exactly on "R", "U" and "F" and otherwise raises ValueError("Invalid move: " + m) |
| PyCube.SingleMoveFace | src/app.py:130-218 | the single-move helper on a face letter is that face's packed quarter turn |
| PyCube.QuarterTurnsFirst | src/app.py:222-224 | n quarter turns are one quarter turn followed by n - 1 more |
| PyCube.RepeatSingleTurns | src/app.py:220-230 | applying the single-move helper n times on a face letter is n packed quarter turns |
| PyCube.ApplyMoveToken | src/app.py:220-232 | each of the nine tokens applies the packed effect of its move and returns a new cube |
| PyCube.RepeatSingleFails | src/app.py:216-217 | repeating the helper on a non-face string raises its ValueError |
| PyCube.StemToken | src/app.py:220-230 | a string whose stem is a face letter is one of the nine tokens |
| PyCube.ApplyMoveAccepts | src/app.py:216-236 | apply_move succeeds if and only if the token is one of the nine, and otherwise raises ValueError naming the stem |
| PyCube.QuarterTurnsStickers | src/app.py:220-230 | k packed quarter turns have the reference effect of k turns on the stickers |
| PyCube.QuarterTurnsBound | src/app.py:220-230 | any number of packed quarter turns keeps a state below 2^72 |
| PyCube.PackedApplyStickers | src/app.py:220-232 | a packed move has the reference effect of the move on the stickers |
| PyCube.PackedApplySeqStickers | src/app.py:405 | a replayed move list has the reference effect on the stickers |
| PyCube.PackedApplySeqBound | src/app.py:405 | replaying a move list keeps a state below 2^72 |
| PyCube.PackedApplySeqAppend | src/app.py:411 | replaying a concatenation on packed states replays its parts in turn |
| PyCube.PackedApplySeqSnoc | src/app.py:407 | replaying a path extended by a move applies the move to the path's packed result |
| PyCube.PackedFourTurns | src/app.py:130-218 | each face turned four times gives back the same 72-bit state |
| PyCube.PackedInverse | src/app.py:220-230 | a move followed by its inverse gives back the same 72-bit state |
| PyCube.PackedUndoPath | src/app.py:411 | replaying a path and then its inverse path gives back the same 72-bit state |
| PyCube.PackedKeepsColours | src/app.py:220-232 | a packed move only rearranges the 24 colour numbers |
| PySimplify.GetInverseMoveToken | src/app.py:368-371 | on the nine tokens, the string inverse spells the inverse move |
| PySimplify.GetInverseMoveInvolution | src/app.py:368-371 | the string inverse maps the nine tokens onto themselves and undoes itself |
| PySimplify.ToValTurns | src/app.py:380-382 | the value read from a token's suffix is the number of quarter turns of its move |
| PySimplify.Combined | src/app.py:383-387 | a merged pair becomes at most one move of the same face |
| PySimplify.PushNoRepeat | src/app.py:376-389 | one step of the pass keeps the stack free of consecutive same-face moves and grows it by at most one |
| PySimplify.SimplifiedNoRepeat | src/app.py:373-390 | the merged list has no two consecutive moves of one face and is no longer than its input |
| PySimplify.PushEffect | src/app.py:376-389 | one step of the pass has the effect of applying the move |
| PySimplify.SimplifiedEffect | src/app.py:373-390 | the merged list has the same effect as the input on every sticker sequence |
| PySimplify.PackedSimplifiedEffect | src/app.py:373-390 | the merged list has the same effect as the input on every 72-bit state |
| PySimplify.SimplifiedFixed | src/app.py:373-390 | a list without consecutive same-face moves is returned unchanged |
| PySimplify.SimplifiedIdempotent | src/app.py:373-390 | merging twice gives the same as merging once |
| PySimplify.SimplifyMoves | src/app.py:373-390 | the stack pass computes the merged list, which has no consecutive same-face moves and is no longer than its input |
| PySolver.Neighbour | src/app.py:402-405 | the state one move away is the packed effect of the move |
| PySolver.PathTableRoot | src/app.py:361-366 | a table holding only the origin, with the empty path, is a valid path table and queue |
| PySolver.ExtendPath | src/app.py:403-407 | a stored path extended by a move on another face reaches the turned state, repeats no face and is one move longer |
| PySolver.Record | src/app.py:413-414 | recording and queueing a reached state keeps every stored path valid, every queued state known, and earlier entries unchanged |
| PySolver.ExpandState | src/app.py:399-414 | trying every move from a state keeps the path table valid and only adds to it; a meeting is a state the other side knows, with a valid path to it |
| PySolver.ExpandLevel | src/app.py:396-434 | expanding one level, on either side, keeps every stored path valid and at most one move longer; a meeting comes with a valid path |
| PySolver.SolvePython | src/app.py:350-436 | a solved cube gives []; a negative depth gives None; a returned list replays from the cube to the solved state, repeats no face, and has at most 2 * (max_depth // 2) + 2 moves |
| Layout.LayoutCells | src/app.py:444-451 | every sticker appears in exactly one cell of the six lines, and every cell shows the sticker located there |
| Layout.LayoutLine | src/app.py:444-451 | line r of the layout has as many characters as the layout has cells on that line |
| Layout.LayoutLines | src/app.py:444-451 | the layout has six lines |
| Layout.StripLeft | src/app.py:456 | the result is a suffix of the input that does not start with white space |
| Layout.StripRight | src/app.py:456 | the result is a prefix of the input that does not end with white space |
| Layout.Split | src/app.py:456 | splitting gives at least one piece and no piece holds a newline |
| Layout.SplitJoin | src/app.py:452-456 | splitting newline-joined lines without newlines gives the lines back |
| Layout.SplitNoNewline | src/app.py:456 | a text without newlines splits into itself alone |
| Layout.SplitAfterNewline | src/app.py:456 | a newline-free line, a newline, then more text splits into the line and the rest's pieces |
| Layout.FirstInvalid | src/app.py:494-496 | the first character that is not a colour letter is found, with only colour letters before it |
| Layout.FirstMiscounted | src/app.py:499-502 | the first colour, in W Y R O B G order, not occurring exactly four times is found |
| Layout.FirstMiscountedFrom | src/app.py:500-502 | from a start colour, the first colour not occurring four times is found |
| Layout.FillStickers | src/app.py:460-491 | the 24 assignments fill each sticker from the cell the layout shows it in |
| Layout.ParseFileContent | src/app.py:454-504 | parsing fails on a wrong line count, then on a too-short line, then on the first bad character, then on the first miscounted colour; on success it returns 24 colour letters with four of each |
| Layout.ValidateStickers | src/app.py:493-504 | the character check comes before the count check, each reporting its first failure; on success every character is a colour letter and each colour occurs four times |
| Layout.FirstInvalidUnique | src/app.py:494-496 | the first bad character found is the one the loop stops at |
| Layout.FirstMiscountedUnique | src/app.py:500-502 | the first miscounted colour found is the one the loop stops at |
| Layout.ParseGenerate | src/app.py:441-504 | parsing the generated text of a valid state gives the state back |
| Layout.GeneratedLines | src/app.py:441-456 | stripping and splitting a generated text gives back its six lines |
| Layout.GeneratedStripped | src/app.py:452-456 | a generated text has no white space at either end |
| Layout.LayoutColours | src/app.py:444-451 | every line of the layout of colour letters is non-empty and free of newlines |
| Layout.PlacedLayout | src/app.py:460-491 | reading the layout's cells of a generated layout gives back the stickers |
| Layout.JoinEnds | src/app.py:452 | a joined text starts with the first line's first character and ends with the last line's last character |
| Layout.ColourNotSpace | src/app.py:456 | no colour letter is white space |
| Layout.StripColours | src/app.py:456 | stripping a text that starts and ends with colour letters changes nothing |
| CCube.CharToIntColor | src/solver.c:14-24 | a character maps below UNKNOWN exactly when it is a colour letter, and then to its number in W Y R O B G |
| CCube.CharToIntColorAgrees | src/solver.c:14-24 | the C mapping and the Python mapping give every letter the same number, and UNKNOWN where Python has no key |
| CCube.SolvedState | src/solver.c:386-388 | the solved array has 24 stickers |
| CCube.ToBytes | src/solver.c:30 | the byte array holds the same colour numbers |
| CCube.ToBytesInjective | src/solver.c:30 | two colour lists are equal exactly when their byte arrays are |
| CCube.IsSolvedAgrees | src/solver.c:102-104 | the C engine calls a state solved exactly when the Python engine does |
| CCube.RotateFaceCw | src/solver.c:106-112 | the four face stickers turn by the face 4-cycle |
| CCube.ApplySingleMove | src/solver.c:115-164 | R, U or F turns the array by the reference quarter turn; any other character leaves it unchanged |
| CCube.BandsR | src/solver.c:119-131 | the face rotation and the eight R band assignments are the reference R turn |
| CCube.BandsU | src/solver.c:133-145 | the face rotation and the eight U band assignments are the reference U turn |
| CCube.BandsF | src/solver.c:147-162 | the face rotation and the eight F band assignments are the reference F turn |
| CCube.RepeatCount | src/solver.c:171-180 | the repetition count is between 1 and 3 |
| CCube.ApplyMove | src/solver.c:167-187 | apply_move returns a copy of the state turned by the token's face as many times as its second character says |
| CCube.CMoveToken | src/solver.c:167-187 | on the nine tokens, apply_move is the move they spell |
| CCube.CMoveOtherSuffix | src/solver.c:174-180 | a face letter followed by any character other than ' or 2 is a single quarter turn |
| CCube.TokenNoNul | src/solver.c:265 | no token contains a NUL character |
| CCube.CMoveInverse | src/solver.c:167-187 | a token and then its inverse token give back the state |
| CCube.CFourTurns | src/solver.c:115-164 | four single quarter turns of a face give back the state |
| CCube.CReplaySnoc | src/solver.c:362-366 | replaying tokens extended by one applies that token to the result |
| CCube.Tokens | src/solver.c:265 | the tokens of a move list spell its moves in order |
| CCube.CReplayTokens | src/solver.c:167-187 | replaying the tokens of a move list is replaying the list |
| CCube.CMovePython | src/solver.c:106-187 | the C engine and the Python packed engine agree index by index on every state and token |
| CCube.ApplyBytes | src/solver.c:167-187 | converting colour numbers to bytes commutes with every move |
| CCube.TurnPowBytes | src/solver.c:182-184 | converting colour numbers to bytes commutes with any number of quarter turns |
| CCube.CMoveKeepsColours | src/solver.c:167-187 | apply_move only rearranges the colours of a state |
| CVisited.HashIndex | src/solver.c:61-67 | the hash slot is below the table size |
| CVisited.HashState | src/solver.c:61-67 | the 32-bit djb2 loop computes the hash slot, which is below the table size |
| CVisited.SlotDist | src/solver.c:75 | every slot is reached within one pass of probes from any start |
| CVisited.DistSlot | src/solver.c:75 | the probe count of a slot reached after k probes is k |
| CVisited.Absent | src/solver.c:74-90 | reaching a free slot after probes that met other states shows the state is absent |
| CVisited.Insert | src/solver.c:77-82 | writing an absent state into the free slot reached keeps the table valid and adds exactly that state |
| CVisited.AllProbed | src/solver.c:74-93 | probing every slot without a free one means the table is full |
| CVisited.VisitedTable.constructor | src/solver.c:58 | a new table is valid and empty |
| CVisited.VisitedTable.Clear | src/solver.c:304 | clearing leaves a valid, empty table |
| CVisited.VisitedTable.MarkVisited | src/solver.c:70-94 | true exactly when an absent state was stored, adding only it; false leaves the table unchanged, the state being present or the table full |
| CQueue.BFSQueue.constructor | src/solver.c:275-282 | a new queue is empty, with the given capacity |
| CQueue.BFSQueue.Enqueue | src/solver.c:284-295 | the node is appended after the old nodes, the tail grows by one, and a full queue doubles its capacity first |
| CBfs.MovesTable | src/solver.c:265 | the move table is R, R', R2, U, U', U2, F, F', F2 in that order |
| CBfs.StaleChild | src/solver.c:288-336 | as written: after `realloc` has moved the node buffer, a token is applied to the freed block's contents; while it has not moved, to the parent's state |
| CBfs.StaleChildDiffers | src/solver.c:288-336 | as written: once the buffer has moved, the enqueued child need not be a move of its parent |
| CBfs.Search | src/solver.c:303-349 | the queue's nodes form a tree rooted at the initial state with each child one token from its parent; a solution index names a solved node at most max_depth + 1 levels down |
| CBfs.ExpandNode | src/solver.c:334-348 | trying the nine tokens only appends children of the current node and keeps the tree and its level bounds; a solution is a solved node one level below the current one |
| CBfs.TryMove | src/solver.c:336-347 | the successor is apply_move of the node's state, appended with the current node as parent when new; solved implies appended and solved |
| CBfs.Visit | src/solver.c:338-347 | a successor is appended exactly when the visited set added it; otherwise it was present or the table was full; solved holds exactly for an appended solved state |
| CBfs.LevelledSnoc | src/solver.c:342-346 | a child of a node of the current level is at most one level further down |
| CBfs.LevelledNext | src/solver.c:318-321 | starting the next level at the tail keeps the level bounds |
| CBfs.ChainSnoc | src/solver.c:342-346 | appending a node reached from an earlier one by a token keeps the tree |
| CBfs.RootStep | src/solver.c:309 | only the root has parent index -1 |
| CBfs.ParentStep | src/solver.c:357-359 | every other node names an earlier parent and a token, one level below its parent |
| CBfs.ReplayStep | src/solver.c:357-359 | replaying a node's token from its parent and then any suffix is replaying the suffix from the node |
| CBfs.IndexedCons | src/solver.c:357-359 | recording one more node puts its token in front of the collected suffix |
| CBfs.CollectPath | src/solver.c:351-360 | chasing parents terminates; it collects levels[solution] indices, which fit the max_depth + 10 buffer, and their tokens replay from the initial state to the solved node |
| CBfs.ReadPath | src/solver.c:362-366 | reading the collected indices in reverse gives the tokens root side first |
| CBfs.Reconstruct | src/solver.c:351-367 | the reconstructed tokens replay from the initial state to the solved node and number between 1 and max_depth + 1 |
| CBfs.SolveBfs | src/solver.c:297-376 | "Already Solved!" exactly for a solved state, which leaves the table untouched; a reported solution is 1 to max_depth + 1 tokens that replay from the initial state to the solved state |

## Left out

- The Streamlit interface, its session state, and the C-binary driver (`_try_c_solver`, `solve_cube`, src/app.py:238-348, 506 onwards). These are user interface, files, subprocesses and timeouts.
- The C `parse_input_file`, `print_state` and `main` file and console I/O. They are replaced by the initial sticker sequence passed to `SolveBfs`. `main` fills `SOLVED_STATE` from the solved string, which is modelled by `CCube.SolvedState`.
- Every message printed to standard output or standard error. `SolveBfs` returns which outcome was printed, with the solution's tokens.
- Allocation failure of `malloc`/`realloc`, `free`, and overflow of the `int` capacity when it doubles. Memory is unbounded here.
- CBfs.Search: `current` is modelled as a copy of the node, which is the evidently intended behaviour. The stale pointer of the code is recorded under "## Findings"; its undefined behaviour is modelled only as an arbitrary freed block (`CBfs.StaleChild`).
- CCube.ApplyMove takes and returns the sticker sequence by value. The array copy it turns in place is modelled, but aliasing between the argument and the result is not.
- CBfs.SolveBfs and `CBfs.Reconstruct` require `max_depth >= -9`, so that the `max_depth + 10` buffer has a non-negative size. The code calls them with 14.
- Completeness of either search is not stated: a cube may be reported unsolved within the bounds. The 1,000,000-slot C table is smaller than the state space, and a full table makes every new state look visited (`CVisited.VisitedTable.MarkVisited` states this).
- PySolver.SolvePython takes `max_depth` as an explicit argument; the default of 18 (src/app.py:350) is not modelled.
- PySolver.SolvePython requires the packed initial state to be below 2^72, as every state built by the constructor is. It returns `Move` values, and their tokens are `Moves.Token`. The returned list is stated only as a solution, not as a shortest one.
- PySolver.SolvePython: a `None` result is stated only for a negative depth. The weaker fact that `None` means no meeting within `max_depth // 2 + 1` rounds follows from the loop but is not an ensures.
- Layout.ParseFileContent checks every line's length before filling the stickers. The code raises `IndexError` at the first short cell. Both report a short line, and the error's message is not modelled.
- Python's `str.strip()` is modelled with the white-space characters of `str.isspace`. Other Unicode handling is not modelled.
- PySimplify.SimplifyMoves merges `Move` values; the token strings are reached through `Moves.Token` (`ToValTurns`).
- `updater_func` progress callbacks of the Python solver are left out.

## Findings

| source | as written | input that shows it | evidently intended | confidence | as-written member | corrected member |
|---|---|---|---|---|---|---|
| src/solver.c:331-336 | `current` points into `q->queue`; an `enqueue` in the move loop may `realloc` that buffer (src/solver.c:288), and the following tokens still read `current->state` | a cube 8 or more moves from solved: more than 100,000 states lie within 7 moves, so the queue outgrows its initial capacity while a node still has tokens left, and `realloc` may move the buffer | the node's state is read from the live buffer, or copied before the loop | medium, not executed | CBfs.StaleChildDiffers | CBfs.ExpandNode |
