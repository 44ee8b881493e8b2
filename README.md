# Chess pieces and their move rules

This project models a small chess-piece library written in Python (`main.py`)
and proves properties of the model in Dafny.

The library has two parts:

- **Move rules.** There are three of them: knight, bishop and king. Each rule
  holds the square it was created with. It lists candidate destination squares
  from that square and keeps the ones whose coordinates both lie in 1..8. It
  does not look at occupancy.
- **Pieces.** A piece holds a current square, a colour, a move counter and a
  rule. `move` checks the target square against the board bounds. On success
  it overwrites the square and adds one to the counter. On failure it returns
  a failure status and changes nothing. `get_all_moves` asks the rule for its
  moves.

Files:

- `board.dfy` (module `Board`): squares as `Position(x, y)`, the bounds
  predicate `OnBoard`, and the order-preserving filter `KeepOnBoard` that all
  three rules apply.
- `move_rules.dfy` (module `MoveRules`): the rules as one datatype,
  `MoveRule = KnightMove(from) | BishopMove(from) | KingMove(from)`. Each
  variant carries its snapshot square. `KnightMoves`, `BishopMoves` and
  `KingMoves` are the three enumerations, and `AllMoves` dispatches to them.
  Each enumeration is proved equal, as a set of squares, to an independent
  geometric description (`KnightJump`, `ForwardDiagonal`, `Adjacent`)
  restricted to the board. Each is also proved free of repeats and bounded in
  size. Concrete squares pin the exact order of the output.
- `piece.dfy` (module `Pieces`): the `Piece` class with fields `position`,
  `color`, `numberOfMoves` and `moveRule`. It has the generic constructor and
  the `Knight`, `Bishop` and `King` constructors that bind a rule to the
  starting square. It also has `ValidatePosition`, `Move`, `GetPosition` and
  `GetAllMoves`. A ghost history `trail` of successful destinations backs the
  invariant `Valid()`. It says the counter equals the number of successful
  moves, the current square is the last successful destination, and every
  such destination is on the board.

Two behaviours of the code are kept exactly as written:

- The rule's square is never refreshed after a move. `GetAllMoves` therefore
  reports the moves from the starting square. `KnightKeepsStartingMoves`
  exhibits this.
- The bishop rule generates only the two diagonals towards higher ranks, for
  distances 1..7. `BishopMoves` proves that no returned square has a rank at
  or below the bishop's own.

The knight's output follows the order of its candidate list, which ends with
`(x + 2, y - 1)`. From (2,3) the result is therefore (4,4), (3,5), (1,5),
(1,1), (3,1), (4,2), with (4,2) last.

## Model

| member | source | states |
|---|---|---|
| Board.OnBoard | main.py:25 | no contract; the bounds test `1 <= i <= 8 and 1 <= j <= 8` as written, shared by the three rules (main.py:33, main.py:46) |
| Board.KeepOnBoard | main.py:25 | the filtered list is never longer than the candidate list |
| Board.KeepOnBoardMembers | main.py:25 | a square is in the result exactly when it is a candidate with both coordinates in 1..8; out-of-range candidates are dropped silently |
| Board.KeepOnBoardDistinct | main.py:25 | filtering a repeat-free candidate list gives a repeat-free result |
| Board.KeepOnBoardAllOn | main.py:25 | when every candidate is on the board, the result is the candidate list itself, in the same order |
| Board.KeepOnBoardAppend | main.py:32-33 | filtering a concatenation equals concatenating the filtered parts, so the result keeps the candidates' order |
| Board.KeepOnBoardPrefix | main.py:25 | a list whose first n squares are on the board and whose other squares are off it filters to its first n squares |
| MoveRules.KnightCandidates | main.py:19-24 | no contract; the eight knight offsets as written, in source order |
| MoveRules.KnightCandidatesAreJumps | main.py:19-24 | the eight listed knight offsets are exactly the squares a knight jump away, with no repeats |
| MoveRules.KnightMoves | main.py:17-25 | the knight's moves are exactly the on-board squares a knight jump from the held square: at most 8, no repeats |
| MoveRules.KnightCentreKeepsAll | main.py:19-25 | from a square with both coordinates in 3..6 all 8 candidates are returned, in the listed order |
| MoveRules.KnightFromB3 | main.py:17-25 | a knight rule held at (2,3) returns exactly (4,4), (3,5), (1,5), (1,1), (3,1), (4,2), in that order |
| MoveRules.Ray | main.py:32 | the ray from distance i to 7 has 8 - i squares, the k-th at file x ± (i + k) and rank y + i + k |
| MoveRules.RayMembers | main.py:32 | a full ray holds exactly the squares at distance 1..7 along its diagonal, each once |
| MoveRules.BishopCandidates | main.py:32 | no contract; the two comprehensions as written, the (x + i, y + i) ray first, then the (x - i, y + i) ray |
| MoveRules.BishopCandidatesAreForward | main.py:32 | the 14 bishop candidates are exactly the squares on the two forward diagonals at distance 1..7, with no repeats |
| MoveRules.BishopMoves | main.py:30-33 | the bishop's moves are exactly the on-board squares (x ± d, y + d) with d in 1..7; none has a rank at or below the held square's; at most 14, no repeats |
| MoveRules.BishopFromD5 | main.py:30-33 | a bishop rule held at (4,5) returns exactly (5,6), (6,7), (7,8), (3,6), (2,7), (1,8); backward squares such as (3,4) and (5,4) are absent |
| MoveRules.KingCandidates | main.py:40-45 | no contract; the eight neighbour offsets as written, in source order |
| MoveRules.KingCandidatesAreAdjacent | main.py:40-45 | the eight listed king offsets are exactly the squares adjacent to the held square, with no repeats |
| MoveRules.KingMoves | main.py:38-46 | the king's moves are exactly the on-board squares adjacent to the held square: at most 8, no repeats |
| MoveRules.KingInteriorKeepsAll | main.py:40-46 | from a square with both coordinates in 2..7 all 8 neighbours are returned, in the listed order |
| MoveRules.KingFromA1 | main.py:38-46 | a king rule held at (1,1) returns exactly (2,1), (1,2), (2,2): three moves |
| MoveRules.AllMoves | main.py:6-12 | whatever the rule, every returned square has both coordinates in 1..8, the rule's own square is never returned, there are no repeats, and there are at most 8 squares (14 for the bishop) |
| Pieces.Status | main.py:62 | no contract; the two values of the `"status"` entry that `move` returns, "failure" here and "success" at main.py:66 |
| Pieces.AllInRange | main.py:58 | true exactly when every coordinate of the list lies in 1..8 |
| Pieces.Piece.ValidatePosition | main.py:57-58 | true exactly when both coordinates lie in 1..8; it reads no state |
| Pieces.Piece.constructor | main.py:51-55 | a new piece holds the given square, colour and rule, with counter 0 |
| Pieces.Piece.Knight | main.py:79-82 | a new knight's rule is the knight rule bound to the starting square |
| Pieces.Piece.Bishop | main.py:86-89 | a new bishop's rule is the bishop rule bound to the starting square |
| Pieces.Piece.King | main.py:93-96 | a new king's rule is the king rule bound to the starting square |
| Pieces.Piece.Move | main.py:60-66 | succeeds exactly when the target is on the board; on success the square becomes the target and the counter goes up by exactly 1; on failure square and counter are unchanged; rule and colour are never changed; the invariant (counter equals the number of successful moves, square equals the last successful target) is kept |
| Pieces.Piece.GetPosition | main.py:68-69 | returns the current square, which is on the board once the piece has moved |
| Pieces.Piece.GetAllMoves | main.py:74-75 | returns the held rule's moves, all on the board, for the square the rule was created with |
| Pieces.KnightKeepsStartingMoves | main.py:74-82 | a knight created on (2,3) reports the same moves before and after moving to (4,4), and they differ from the moves from (4,4) |
| Pieces.ThreeMovesThenOffBoard | main.py:60-66 | after three successful moves the counter is 3 and the square is the last target; a move to (9,9) fails |

## Left out

- The demonstration at the end of `main.py` (three pieces printed to the console) is console output with no logic of its own.
- `__str__` and the human-readable messages that `move` returns are string formatting. `move`'s result is modelled as the status alone.
- The abstract base classes and per-kind subclasses become one datatype of rules and one `Piece` class with one constructor per kind.
- The colour is stored and never changed, but no logic reads it.
- Coordinate lists of other lengths are not modelled. `validate_position` accepts a list of any length, including an empty one, which it passes. A position here is always a pair, as every rule unpacks it. `AllInRange` models the all-coordinates check over a list, and `ValidatePosition` applies it to the pair.
- Aliasing is not modelled. In the source, the piece and its rule share the caller's list object for the starting square, so mutating that list in place from outside would change both. Squares here are values.
