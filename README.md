# Chess engine back end — verified model

This project models the back end of a small Python chess program, the
`ChessEngine.py` module. It covers:

- the `Move` value: start and end squares, snapshots of the moved and captured
  pieces, the special-move flags, the numeric identifier that equality is
  decided on, and the move's notation;
- the `clean_pinned_moves` decorator that keeps a pinned piece on its pin axis;
- the `GameState` object, over an 8x8 board:
  - `check_for_pins_and_checks`, the scan outward from the king;
  - the six piece generators;
  - `get_all_possible_moves` and `get_valid_moves`, which filters for check and
    sets the checkmate and stalemate flags;
  - `make_move` and `undo_move`.

The model has nine modules, one file each:

| file | module | what it holds |
|---|---|---|
| `pieces.dfy` | `Pieces` | colours, piece kinds, squares, direction tables, castling counters, and the table of which piece can check along a ray |
| `moves.dfy` | `Moves` | the `Move` value, its identifier, `==` (including the `TypeError` for a non-`Move` operand), and the notation with its square-name tables |
| `pins.dfy` | `PinFilter` | the pin filter, as functions on `(move, direction)` lists |
| `rules.dfy` | `Rules` | one specification function per generator, and the move list of the whole board (`RowsPrefix`); lemmas state what every generated move satisfies |
| `attacks.dfy` | `Attacks` | the scanner as a function (`Scanner`), and lemmas that every reported check is a clear line to an attacker (or a knight square) and every pin a lone own piece on such a line, and conversely that every such line, knight and pin is reported, so in_check holds exactly when the king is attacked |
| `legality.dfy` | `Legality` | `get_valid_moves`' result as a function (`ValidMoves`), with the single-check and double-check properties |
| `position.dfy` | `Position` | `make_move` and `undo_move` on a value snapshot of the changing state. `Apply` and `Revert` are compositions of one step function per block of source lines. The round-trip lemmas say what undo restores |
| `engine.dfy` | `Engine` | the class `GameState`, whose board is an `array2<Piece>` |
| `castling.dfy` | `LongCastle` | black's long castle as generated and as evidently intended (see Findings) |

In `engine.dfy`, each source method becomes a method with the source's loops.
Each method is proved to compute the matching specification function:

- the scanner and the generators are proved against the `Rules` and `Attacks`
  functions;
- `get_valid_moves` is proved against `Legality.ValidMoves`;
- `make_move` and `undo_move` are proved to change the object exactly as
  `Position.Apply` and `Position.Revert` say.

Where the code departs from the rules of chess, the model follows the code.
These are:

- castling candidates are appended inside the eight-direction loop, so each
  appears eight times (`Rules.CastlesRepeated`);
- black's long castle tests the squares of row 7, so it is offered with d8
  occupied, and undo_move then loses the piece on d8 (see Findings);
- a knight move's direction tag is its destination square;
- the single-check filter keeps a move when exactly one of "lands on the
  check line" and "moves a king" holds, so a king never captures a checker
  (`Legality.KingNeverCapturesChecker`);
- `undo_move` rebuilds the en-passant window from the previous move using the
  colour of the side to move's opponent.

The model's preconditions stand in for places where the Python code would fail
or read out of range. The last row of the board would be indexed, or wrap
around, for a pawn that has nothing ahead of it. A king could also stand away
from the square recorded for it.

## Model

| member | source | states |
|---|---|---|
| Pieces.PawnChecksFromAhead | ChessEngine.py:295 | a pawn passes the check condition only when it is one step from the king on the diagonal it attacks from |
| Moves.MoveId | ChessEngine.py:22 | a move's identifier: start row, start column, end row and end column as the thousands, hundreds, tens and units digits |
| Moves.DecodeMoveId | ChessEngine.py:22 | the identifier of an on-board move decodes back to its start and end squares |
| Moves.MoveIdInjective | ChessEngine.py:22 | for on-board moves, equal identifiers hold exactly when the start and end squares are equal |
| Moves.Equals | ChessEngine.py:51-55 | comparing with a non-Move gives the TypeError; two on-board Moves compare equal exactly when their start and end squares agree |
| Moves.RankFile | ChessEngine.py:46-47 | a square's name: the file letter of its column followed by the rank digit of its row |
| Moves.ParseSquare | ChessEngine.py:10-13 | reads a two-character name back through the inverse tables, or gives nothing when either character is not in them |
| Moves.SquareNameRoundTrip | ChessEngine.py:10-13 | the file-and-rank name of every square reads back through the inverse tables as that square |
| Moves.ParsedSquareIsNamed | ChessEngine.py:10-13 | every two-character string the inverse tables accept names an on-board square, and is that square's name |
| Moves.Notation | ChessEngine.py:35-47 | "OO" for a short castle, "OOO" for a long one; otherwise the start square's name, then the end square's (each reading back as that square), then "ep" exactly for an en-passant capture |
| Moves.SameNotationSameMove | ChessEngine.py:35-55 | two non-castling moves with the same notation compare equal |
| Moves.NotationOfKingPawnOpening | ChessEngine.py:35-47 | the move from (6, 4) to (4, 4) prints as "e2e4" |
| PinFilter.PinDirection | ChessEngine.py:81 | the pin table has no entry for a square exactly when no pin names it; otherwise it gives the direction of the last pin naming it |
| PinFilter.KeepOnAxis | ChessEngine.py:85 | the kept moves are an in-order subsequence of the generated ones; a move is kept exactly when its tag is d or -d, and one is kept per such entry |
| PinFilter.CleanPinned | ChessEngine.py:72-88 | the output is an in-order subsequence of the generator's moves; an unpinned square keeps every move; a square pinned along d keeps exactly the moves tagged d or -d |
| Rules.Slide | ChessEngine.py:465-481 | one direction's ray from step k on: empty squares are added and passed, the first opponent piece is added and ends the ray, an own piece or the board edge ends it |
| Rules.SlideLength | ChessEngine.py:465 | a ray from step k has at most 8 - k moves |
| Rules.SlideEntry | ChessEngine.py:464-481 | entry i of a ray is the plain move to the square k + i steps out, which is on the board and empty or an opponent's; every entry before the last is empty |
| Rules.SlideShape | ChessEngine.py:464-481 | the same facts, for every entry of the ray at once |
| Rules.SlideIsLawful | ChessEngine.py:464-481 | every ray move lands on an empty or opponent square reached over empty squares only |
| Rules.SlideDirs | ChessEngine.py:464-481 | every move of the rays starts on the piece's square and records the piece standing there |
| Rules.SlideDirsLawful | ChessEngine.py:462-481 | every rook or bishop move follows one of its directions and lands on an empty or opponent square, over empty squares only |
| Rules.KnightUpTo | ChessEngine.py:518-533 | every knight move starts on the knight's square and records the knight as the moved piece |
| Rules.KnightUpToLawful | ChessEngine.py:518-533 | every knight move lands on the board at one of the knight offsets, on an empty or opponent square, tagged with its destination |
| Rules.Castles | ChessEngine.py:561-576 | the castling candidates, as written: none in check; a short castle when its counter is 0 and the home-row squares 5 and 6 are empty; a long castle when its counter is 0 and row 7's squares 1 to 3 are empty, for black too |
| Rules.CastlesOffered | ChessEngine.py:561-576 | castling candidates start on the recorded king square. A short castle is offered exactly when not in check, the counter is 0 and the home-row squares 5 and 6 are empty. A long castle needs the counter at 0 and row 7's squares 1 to 3 empty, for either colour |
| Rules.CastlesStart | ChessEngine.py:565-576 | every castling candidate moves the piece on the recorded king square |
| Rules.KingUpTo | ChessEngine.py:547-576 | every king-generator entry starts on the king's square and records the piece there |
| Rules.KingUpToLawful | ChessEngine.py:547-576 | every king move is a castling candidate, or a one-square step in one of the eight directions onto an empty or opponent square |
| Rules.KingStepCount | ChessEngine.py:549-576 | each direction of the king loop contributes every castling candidate once |
| Rules.CastlesAllCount | ChessEngine.py:561-576 | every castling candidate is flagged as a castle |
| Rules.CastlesRepeated | ChessEngine.py:549-576 | each castling candidate occurs in the king's moves exactly once for each of the eight directions (its multiplicity is n after n directions), and castle-flagged entries number n times the candidates |
| Rules.CastlesOnce | ChessEngine.py:561-576 | the castling list holds each candidate once: a short and a long castle never coincide |
| Rules.KingStepOnce | ChessEngine.py:549-576 | one direction of the king loop holds each castling candidate exactly once, since its one-square step is never castle-flagged |
| Rules.PawnPushes | ChessEngine.py:437-442 | one square ahead when it is empty, promoting on rows 0 and 7; then two squares ahead from the start row when that square is empty too |
| Rules.PawnDiagonals | ChessEngine.py:444 | the pawn's two diagonals, forward and right, then forward and left |
| Rules.PushesLawful | ChessEngine.py:437-442 | a single push needs the square ahead empty; a double push only from the start row with both squares empty and never a promotion; a push promotes exactly on rows 0 and 7 |
| Rules.DiagonalLawful | ChessEngine.py:444-452 | a diagonal move captures an opponent piece, promoting exactly on rows 0 and 7, or is an en-passant capture listed in the window |
| Rules.PawnTaggedLawful | ChessEngine.py:429-456 | every pawn move starts on the pawn's square and obeys the push, double-push, capture, en-passant and promotion rules above |
| Rules.PawnMoves | ChessEngine.py:428-456 | the pawn's pushes, captures and en-passant captures through the pin filter |
| Rules.RookMoves | ChessEngine.py:459-484 | the rays along the four rook directions through the pin filter |
| Rules.BishopMoves | ChessEngine.py:487-511 | the rays along the four bishop directions through the pin filter |
| Rules.KnightMoves | ChessEngine.py:514-535 | the knight's moves through the pin filter |
| Rules.QueenMoves | ChessEngine.py:538-541 | the filtered rook moves followed by the filtered bishop moves, with no filter of its own |
| Rules.KingMoves | ChessEngine.py:544-580 | the king's steps and castling candidates from the recorded king square through the pin filter |
| Rules.SquareMoves | ChessEngine.py:411-414 | a square yields moves only if it holds a piece of the side to move, and they all start there and record that piece |
| Rules.RowPrefixOwn | ChessEngine.py:409-414 | every move generated from a row moves a piece of the side to move from its own square |
| Rules.RowsPrefix | ChessEngine.py:405-416 | the moves of the first r rows, row by row; get_all_possible_moves is r = 8 |
| Rules.RowsPrefixOwn | ChessEngine.py:405-416 | every generated move moves a piece of the side to move from its own square |
| Attacks.Scanner | ChessEngine.py:271-351 | check_for_pins_and_checks: the eight directions walked outward from the king, then the eight knight squares |
| Attacks.ScanRay | ChessEngine.py:305-331 | a check is reported only with no own piece met, and its path extends the squares visited; a pin carries the direction walked and the own piece met |
| Attacks.RaysUpTo | ChessEngine.py:300-331 | in_check holds exactly when a check was collected |
| Attacks.KnightChecks | ChessEngine.py:336-347 | the knight squares keep the pins and the ray checks, append to the checks only, and keep in_check equivalent to a non-empty check list |
| Attacks.RaysUpToFrom | ChessEngine.py:300-331 | every collected check and pin is the outcome of one of the directions scanned |
| Attacks.KnightChecksFrom | ChessEngine.py:336-347 | every check added by the knight squares is the one-square line to an opponent knight at a knight offset |
| Attacks.OffBoardRayClear | ChessEngine.py:305-309 | once a ray leaves the board it reports nothing |
| Attacks.PawnCheckIsAdjacent | ChessEngine.py:295-326 | a check line ending on a pawn is one square long and runs diagonally against that pawn's direction of march |
| Attacks.RayCheckFrom | ChessEngine.py:305-326 | a check found from step k on is a clear straight line from the king to an attacker |
| Attacks.RayCheckIsLine | ChessEngine.py:300-326 | every check a direction reports is consecutive squares from the king, empty but for the last, which holds an opponent piece able to attack along that direction from that distance |
| Attacks.ClearLineFound | ChessEngine.py:305-326 | walking a clear line that ends in an attacker reports that line as a check |
| Attacks.ClearLineIsCheck | ChessEngine.py:300-326 | conversely, a clear line from the king to an attacker is reported as a check with that line as its path |
| Attacks.RayPinFrom | ChessEngine.py:313-329 | a pin found from step k on names an own piece alone between the king and an attacker |
| Attacks.RayPinIsLine | ChessEngine.py:300-331 | every pin a direction reports carries that direction and names an own piece that is the first piece from the king, with a clear line behind it to an attacker |
| Attacks.ScannerSound | ChessEngine.py:271-351 | in_check holds exactly when checks is non-empty; every check is a clear line to an attacker or a knight square holding an opponent knight; every pin is an own piece alone between the king and an attacker |
| Attacks.PinLineIsPin | ChessEngine.py:305-331 | conversely to RayPinIsLine, an own piece alone between the king and an attacker along a direction is what that direction's walk reports as pinned |
| Attacks.RaysUpToCollects | ChessEngine.py:300-331 | every check and every pin that one of the scanned directions reports is collected |
| Attacks.KnightChecksCollect | ChessEngine.py:336-347 | every opponent knight on a scanned knight square is collected as a one-square check |
| Attacks.ScannerComplete | ChessEngine.py:271-351 | nothing is missed: every clear line from the king to a piece able to attack along it is among the checks, every opponent knight a knight's move away is a one-square check, every lone own piece between the king and an attacker is among the pins |
| Attacks.InCheckIffAttacked | ChessEngine.py:271-351 | in_check holds exactly when the king is attacked along a clear line or by an opponent knight a knight's move away |
| Attacks.FirstCheckEndsOnBoard | ChessEngine.py:367-370 | the first check's last square exists and is on the board, so the checking piece can be read there |
| Legality.Scanned | ChessEngine.py:361 | installing the scan replaces only in_check and pins |
| Legality.BlockSquares | ChessEngine.py:367-379 | the valid squares are drawn from the check line and include the checker's square; a knight check leaves only that square |
| Legality.KeepAnswers | ChessEngine.py:381 | the kept moves are an in-order subsequence; a move is kept exactly when "lands on a valid square" differs from "moves a king" |
| Legality.ValidMoves | ChessEngine.py:360-388 | get_valid_moves' result: every generated move out of check; under one check the moves the filter keeps; under two or more the king's moves from its recorded square |
| Legality.ValidMovesIgnoreStaleScan | ChessEngine.py:360-362 | the result does not depend on the in_check and pins held before the call |
| Legality.NotInCheckKeepsAll | ChessEngine.py:366 | out of check every generated move is returned |
| Legality.SingleLineCheck | ChessEngine.py:367-381 | under one non-knight check, a move is returned exactly when it is generated and either a non-king move onto the check line or a king move off it |
| Legality.KnightCheckMustCapture | ChessEngine.py:367-381 | under one knight check, a non-king move is returned exactly when it is generated and captures the knight |
| Legality.KnightCheckKingMoves | ChessEngine.py:367-381 | under one knight check, a king move is returned exactly when it is generated and does not land on the knight's square |
| Legality.KingNeverCapturesChecker | ChessEngine.py:380-381 | under one check, no returned king move lands on the checker's square |
| Legality.DoubleCheckMovesKing | ChessEngine.py:384-387 | under two or more checks every returned move starts on the recorded king square |
| Legality.ValidAreGenerated | ChessEngine.py:362-381 | with at most one check every returned move is a generated move |
| Position.Put | ChessEngine.py:153 | a board write leaves an 8x8 board holding the new piece on the written square |
| Position.SpotBump | ChessEngine.py:180-186 | squares other than the four rook home squares leave the counters alone |
| Position.Window | ChessEngine.py:172 | the window lists the on-board neighbours in the pawn's row, each with the diagonal back to the pawn's column, and includes each neighbour that is on the board |
| Position.MoveStep | ChessEngine.py:153-166 | make_move's first block: the start square emptied, the moved piece on the end square, the move logged, a moved king's square recorded and both of its counters raised |
| Position.EnPassantStep | ChessEngine.py:168-177 | the window opens after a double push by the side to move and closes otherwise; an en-passant capture empties the square beside the start |
| Position.CastlingStep | ChessEngine.py:179-199 | a move from or onto a rook home square raises that counter; a castle moves the rook of the side to move on its home row |
| Position.PromotionStep | ChessEngine.py:201-203 | a promotion writes the chosen piece on the end square |
| Position.Apply | ChessEngine.py:151-206 | make_move appends the move to the log and passes the turn |
| Position.Revert | ChessEngine.py:209-265 | undo_move leaves an empty-log state unchanged; otherwise it drops the last logged move and passes the turn back |
| Position.UnmoveStep | ChessEngine.py:211-223 | undo_move's first block: the last move leaves the log, its start and end squares get their snapshots back, a moved king's square and counters are put back |
| Position.UncaptureStep | ChessEngine.py:225-229 | after an en-passant capture the window is rebuilt around its end square and the captured pawn is put back beside the start |
| Position.RewindStep | ChessEngine.py:231-238 | with a move left in the log, the window is rebuilt from it, looking for a double push by the opponent of the side to move; with an empty log it is left alone |
| Position.ReopenStep | ChessEngine.py:225-238 | undo_move's whole en-passant block: the capture lines, then the recomputation |
| Position.UncastleStep | ChessEngine.py:241-261 | rook home squares touched lower their counters; a castle puts the rook of the side that castled back in its corner and empties the square it went to |
| Position.RoundTripSquarePlain | ChessEngine.py:151-265 | after make_move then undo_move of a move with no special flag (perhaps a promotion), every square holds what it held |
| Position.RoundTripSquareEnPassant | ChessEngine.py:151-265 | the same for an en-passant capture |
| Position.RoundTripSquareLong | ChessEngine.py:151-265 | the same for a long castle meeting `Applicable`: every white long castle generated with the rook at home, but a black one only when d8 is empty (see Findings) |
| Position.RoundTripSquareShort | ChessEngine.py:151-265 | the same for a short castle |
| Position.RoundTripCells | ChessEngine.py:151-265 | undo_move after make_move restores the whole board, for a move meeting `Applicable` (a black long castle with d8 occupied does not) |
| Position.CountersRestored | ChessEngine.py:159-248 | undo_move's counter changes cancel make_move's |
| Position.ApplyFields | ChessEngine.py:151-206 | make_move logs the move last, records a moved king's new square and raises the counters of a moved king and of touched rook home squares |
| Position.RevertFields | ChessEngine.py:209-265 | undo_move drops the last logged move, puts a moved king's square back and lowers the same counters |
| Position.RoundTrip | ChessEngine.py:151-265 | undo_move after make_move restores the board, the side to move, the log, both king squares and all four counters, for castles, en-passant captures and promotions too, for a move meeting `Applicable` (a black long castle with d8 occupied does not) |
| Position.RoundTripWindow | ChessEngine.py:225-238 | the window undo_move leaves is empty whenever the move before was not the side to move's own, and is make_move's window when the log held only a non-en-passant move |
| Position.RoundTripExact | ChessEngine.py:151-265 | in an alternating game whose window was empty, undo_move after make_move restores the whole state, for a move meeting `Applicable` (a black long castle with d8 occupied does not) |
| Position.WindowAfterDoublePush | ChessEngine.py:168-174 | the window opens exactly after a double push by the mover's pawn, lists only on-board squares in its end row, and each entry's diagonal reaches the skipped square |
| Position.CastlingRightsOnlyShrink | ChessEngine.py:158-186 | make_move never lowers a counter; a king move raises both of its side's; a move from or onto a rook home square raises that side's |
| Position.KingSquareTracked | ChessEngine.py:158-166 | a king move records its end square as that king's square, and otherwise both king squares are kept |
| Position.PlainMoveBoard | ChessEngine.py:153-154 | an ordinary move empties its start square, puts the moved piece on its end square and changes no other square |
| Engine.GameState.constructor | ChessEngine.py:97-140 | the starting position, white to move, empty log, kings on (7, 4) and (0, 4), no check, no window, counters at 0 |
| Engine.GameState.CheckForPinsAndChecks | ChessEngine.py:271-351 | the loops compute the scanner's (in_check, pins, checks) |
| Engine.GameState.ScanDirection | ChessEngine.py:300-331 | one direction's walk adds that direction's check or pin to the collected result |
| Engine.GameState.SlideStep | ChessEngine.py:465-481 | one square of a ray: the entry it adds, and whether the walk stops there |
| Engine.GameState.SlideRay | ChessEngine.py:465-481 | the inner loop computes the ray along one direction |
| Engine.GameState.SlideTagged | ChessEngine.py:464-481 | the outer loop computes the rays over the direction list |
| Engine.GameState.GetRookMoves | ChessEngine.py:459-484 | the rook's moves through the pin filter |
| Engine.GameState.GetBishopMoves | ChessEngine.py:487-511 | the bishop's moves through the pin filter |
| Engine.GameState.GetQueenMoves | ChessEngine.py:538-541 | the filtered rook moves followed by the filtered bishop moves |
| Engine.GameState.GetKnightMoves | ChessEngine.py:514-535 | the knight's moves through the pin filter |
| Engine.GameState.GetCastleMoves | ChessEngine.py:561-576 | the castling candidates of the side to move |
| Engine.GameState.KingAdjacent | ChessEngine.py:549-558 | the one-square king step along a direction, when on the board and empty or an opponent's |
| Engine.GameState.GetKingMoves | ChessEngine.py:544-580 | the king's moves, castling candidates appended in every direction, through the pin filter |
| Engine.GameState.PawnPushMoves | ChessEngine.py:432-442 | the pawn's single and double pushes |
| Engine.GameState.PawnDiagonalMoves | ChessEngine.py:444-453 | one diagonal's capture and en-passant capture |
| Engine.GameState.GetPawnMoves | ChessEngine.py:428-456 | the pawn's moves through the pin filter |
| Engine.GameState.GetSquareMoves | ChessEngine.py:411-414 | the dispatch to the generator of the piece on the square |
| Engine.GameState.GetRowMoves | ChessEngine.py:410-414 | the moves of one row, column by column |
| Engine.GameState.GetAllPossibleMoves | ChessEngine.py:405-416 | the moves of the whole board, row by row |
| Engine.GameState.FilterForCheck | ChessEngine.py:366-388 | the check filter turns the generated moves into the valid moves |
| Engine.GameState.InstallScan | ChessEngine.py:361 | in_check, pins and checks take the scanner's result; nothing else changes |
| Engine.GameState.UpdateEndFlags | ChessEngine.py:391-399 | no move and in check sets checkmate; no move and not in check sets stalemate; any move clears both |
| Engine.GameState.GetValidMoves | ChessEngine.py:360-401 | returns the valid moves for the turn as it stood, installs the scan, sets the checkmate and stalemate flags, and changes nothing else |
| Engine.GameState.BumpRookSpot | ChessEngine.py:180-186 | the counter of a rook home square changes by delta |
| Engine.GameState.Place | ChessEngine.py:153 | one board write |
| Engine.GameState.TrackKing | ChessEngine.py:158-166 | a moving king's square and both of its side's counters are updated |
| Engine.GameState.MoveRook | ChessEngine.py:188-197 | the castling rook's square is emptied and its target receives it |
| Engine.GameState.MoveStage | ChessEngine.py:153-166 | the state after make_move's first block |
| Engine.GameState.EnPassantStage | ChessEngine.py:168-177 | the state after make_move's en-passant block |
| Engine.GameState.CastlingStage | ChessEngine.py:179-197 | the state after make_move's castling block |
| Engine.GameState.PromotionStage | ChessEngine.py:201-203 | the state after make_move's promotion block |
| Engine.GameState.PassTurn | ChessEngine.py:205-206 | the turn passes and nothing else changes |
| Engine.GameState.MakeMove | ChessEngine.py:151-207 | the object's new board, side to move, log, king squares, window and counters are exactly Apply of the old ones; flags and scan are untouched |
| Engine.GameState.UnmoveStage | ChessEngine.py:211-223 | the state after undo_move's first block |
| Engine.GameState.UncaptureStage | ChessEngine.py:225-229 | the state after undo_move's en-passant capture lines |
| Engine.GameState.RewindStage | ChessEngine.py:231-238 | the state after undo_move's window recomputation |
| Engine.GameState.ReopenStage | ChessEngine.py:225-238 | the state after undo_move's whole en-passant block |
| Engine.GameState.UncastleStage | ChessEngine.py:241-259 | the state after undo_move's castling block |
| Engine.GameState.UndoMove | ChessEngine.py:209-265 | the object's new state is exactly Revert of the old one; with an empty log nothing changes |
| LongCastle.BlackLongCastleClearsD8 | ChessEngine.py:574-576 | with b1, c1 and d1 empty, black not in check and its long counter at 0, black's long castle is offered whatever stands on d8, and make_move then undo_move leaves d8 empty |
| LongCastle.IntendedMatchesWhite | ChessEngine.py:561-576 | testing each side's own back rank changes nothing for white |
| LongCastle.IntendedLongCastle | ChessEngine.py:566-576 | with the intended test, a long castle moves the king from its recorded square to c on its back rank, and d on that rank is empty |
| LongCastle.IntendedLongCastleRoundTrip | ChessEngine.py:151-265 | with the intended test, every long castle of a king and rook on their home squares meets `Applicable`, so undo_move after make_move restores the board, the side to move, the log, the king squares and the counters |

## Findings

| source | as written | input that shows it | evidently intended | confidence | as-written member | corrected member |
|---|---|---|---|---|---|---|
| ChessEngine.py:575 | black's long castle is offered when b1, c1 and d1 (row 7) are empty | 1.Nc3 Nf6 2.d3 Ng8 3.Be3 Nf6 4.Qd2, black to move: black's long counter is 0 and b1, c1, d1 are empty, so black is offered O-O-O with the queen on d8; make_move writes the rook over the queen, and undo_move then empties d8 | test b8, c8 and d8 (row 0), black's own back rank | not executed; the counterexample is proved about the model | `LongCastle.BlackLongCastleClearsD8` | `LongCastle.IntendedLongCastleRoundTrip` (with `LongCastle.IntendedCastles`) |

The class `GameState` and `Rules.Castles` keep the test as written; the
corrected generator `LongCastle.IntendedCastles` is what the round-trip
property is proved for.

## Left out

- The pygame front end (`ChessMain.py`, `src/ChessMain.py`, `src/UI.py`, `src/interfaces.py`, `src/utils_interfaces/buttons.py`, `src/utils_interfaces/menu.py`, `main.py`): rendering, events and theming, with no game logic beyond calling the engine.
- `calc_moves_number` (ChessEngine.py:593-600): `make_move` returns nothing, so every recursive call starts again from the initial position; its totals mean nothing to state.
- `__deepcopy__` (ChessEngine.py:144-148): it copies attribute references, so the copy shares the board and the log; the model has no copy operation.
- `get_castling_moves` (ChessEngine.py:582-583) is an empty stub, and `MOVES_FUNCTIONS` is modelled as the `match` in `GetSquareMoves`.
- `Move.__repr__` is `Notation`, and `which_promotion` is stored but never read, so it is not a field.
- The numpy board becomes an 8x8 `array2`, and the string cells become the `Piece` datatype. The string-built counter names become four fields.
- Engine.GameState.GetAllPossibleMoves: requires that every pawn of the side to move has a row ahead of it. The source would read row -1 or 8 (numpy wraps around or raises) for a pawn on its last rank.
- Engine.GameState.GetAllPossibleMoves: also requires that every king of the side to move stands on the recorded king square. The castling candidates start there, and the pin lookup is keyed by the moves' start squares. With a king elsewhere its castling candidates would start on another square than the one generated from, and the pin lookup could then miss (a KeyError).
- Engine.GameState.MakeMove: does not require the promotion piece to be chosen. Generation leaves it as the empty placeholder, and make_move writes whatever the move holds.
- Position.RoundTrip: excludes the en-passant window. undo_move rebuilds it from the previous move using the wrong colour, and keeps it stale when the log becomes empty. `Position.RoundTripWindow` states what it becomes instead.
- Position.RoundTrip: requires `Applicable`: the move's snapshots match the board, at most one special flag, and a castle's rook at home with its target square free. Generated moves meet it when the counters at 0 mean king and rooks are still home, except black's long castle with d8 occupied, for which the source's undo does not restore the board (see Findings). `Position.RoundTripSquareLong`, `Position.RoundTripCells` and `Position.RoundTripExact` carry the same requirement.
- Full king safety: castling does not test attacked squares, and king moves under a single check are not tested for safety. So no lemma claims that the returned moves are legal chess.
- The source's helper structure is only partly mirrored. `SlideStep`, `ScanDirection`, `KingAdjacent`, `GetCastleMoves` and the make/undo stage methods split source methods into pieces, to keep each proof small. Together they perform the same writes in the same order.
