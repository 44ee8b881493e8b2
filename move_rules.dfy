/**
 The three movement rules. Each rule value holds the square it was built
 with and enumerates candidate destinations from that square, keeping only
 those on the board. The rules ignore occupancy: there is nothing else on
 the board to block or capture.
 */
module MoveRules {
  import opened Board

  /** A movement rule bound to the square it was constructed with. */
  datatype MoveRule =
    | KnightMove(from: Position)
    | BishopMove(from: Position)
    | KingMove(from: Position)

  function Abs(n: int): nat {
    if n < 0 then -n else n
  }

  // ----- Knight -----

  /** One knight jump apart: two squares along one axis and one along the other. */
  predicate KnightJump(p: Position, q: Position) {
    var dx, dy := Abs(q.x - p.x), Abs(q.y - p.y);
    (dx == 2 && dy == 1) || (dx == 1 && dy == 2)
  }

  /** The eight knight offsets, in the order the rule lists them. */
  function KnightCandidates(p: Position): seq<Position> {
    var x, y := p.x, p.y;
    [ Position(x + 2, y + 1), Position(x + 1, y + 2),
      Position(x - 1, y + 2), Position(x - 2, y + 1),
      Position(x - 2, y - 1), Position(x - 1, y - 2),
      Position(x + 1, y - 2), Position(x + 2, y - 1) ]
  }

  lemma KnightCandidatesAreJumps(p: Position)
    ensures forall q :: q in KnightCandidates(p) <==> KnightJump(p, q)
    ensures Distinct(KnightCandidates(p))
  {
    forall q | KnightJump(p, q)
      ensures q in KnightCandidates(p)
    {
      var c := KnightCandidates(p);
      if q.x - p.x == 2 && q.y - p.y == 1 { assert q == c[0]; }
      else if q.x - p.x == 1 && q.y - p.y == 2 { assert q == c[1]; }
      else if q.x - p.x == -1 && q.y - p.y == 2 { assert q == c[2]; }
      else if q.x - p.x == -2 && q.y - p.y == 1 { assert q == c[3]; }
      else if q.x - p.x == -2 && q.y - p.y == -1 { assert q == c[4]; }
      else if q.x - p.x == -1 && q.y - p.y == -2 { assert q == c[5]; }
      else if q.x - p.x == 1 && q.y - p.y == -2 { assert q == c[6]; }
      else { assert q == c[7]; }
    }
  }

  /** Knight rule: exactly the on-board squares one knight jump away, at most
      eight of them, none repeated. */
  function KnightMoves(p: Position): (r: seq<Position>)
    ensures forall q :: q in r <==> OnBoard(q) && KnightJump(p, q)
    ensures Distinct(r) && |r| <= 8
  {
    KnightCandidatesAreJumps(p);
    KeepOnBoardMembers(KnightCandidates(p));
    KeepOnBoardDistinct(KnightCandidates(p));
    KeepOnBoard(KnightCandidates(p))
  }

  /** Away from the two outer files and ranks no candidate is dropped: all
      eight jumps are returned, in the listed order. */
  lemma KnightCentreKeepsAll(p: Position)
    requires 3 <= p.x <= 6 && 3 <= p.y <= 6
    ensures KnightMoves(p) == KnightCandidates(p)
    ensures |KnightMoves(p)| == 8
  {
    KeepOnBoardAllOn(KnightCandidates(p));
  }

  // ----- Bishop -----

  /** The two diagonal directions the bishop rule sweeps, both towards higher ranks. */
  datatype Diagonal = UpRight | UpLeft

  function Step(d: Diagonal, x: int, i: int): int {
    if d == UpRight then x + i else x - i
  }

  /** The squares at distance i, i + 1, ..., 7 from p along diagonal d. */
  function Ray(p: Position, d: Diagonal, i: int): (r: seq<Position>)
    requires 1 <= i <= 8
    ensures |r| == 8 - i
    ensures forall k :: 0 <= k < |r| ==> r[k] == Position(Step(d, p.x, i + k), p.y + i + k)
    decreases 8 - i
  {
    if i == 8 then []
    else
      var rest := Ray(p, d, i + 1);
      [Position(Step(d, p.x, i), p.y + i)] + rest
  }

  /** The bishop's candidates: (x + i, y + i) for i = 1..7, then (x - i, y + i)
      for i = 1..7. The two rays towards lower ranks are not generated. */
  function BishopCandidates(p: Position): seq<Position> {
    Ray(p, UpRight, 1) + Ray(p, UpLeft, 1)
  }

  /** On one of the two forward diagonals through p, at distance 1..7. */
  predicate ForwardDiagonal(p: Position, q: Position) {
    var d := q.y - p.y;
    1 <= d <= 7 && (q.x == p.x + d || q.x == p.x - d)
  }

  /** A full ray (distances 1..7) holds exactly the squares along d at those
      distances, each once. */
  lemma RayMembers(p: Position, d: Diagonal)
    ensures forall q :: q in Ray(p, d, 1) <==> 1 <= q.y - p.y <= 7 && q.x == Step(d, p.x, q.y - p.y)
    ensures Distinct(Ray(p, d, 1))
  {
    var r := Ray(p, d, 1);
    forall q: Position | 1 <= q.y - p.y <= 7 && q.x == Step(d, p.x, q.y - p.y)
      ensures q in r
    {
      assert q == r[q.y - p.y - 1];
    }
  }

  lemma BishopCandidatesAreForward(p: Position)
    ensures forall q :: q in BishopCandidates(p) <==> ForwardDiagonal(p, q)
    ensures Distinct(BishopCandidates(p)) && |BishopCandidates(p)| == 14
  {
    var up, left := Ray(p, UpRight, 1), Ray(p, UpLeft, 1);
    RayMembers(p, UpRight);
    RayMembers(p, UpLeft);
    DistinctAppend(up, left);
    forall q ensures q in up + left <==> ForwardDiagonal(p, q) {
      assert q in up + left <==> q in up || q in left;
    }
  }

  /** Bishop rule: exactly the on-board squares on the two forward diagonals,
      at most fourteen, none repeated, and none on a rank at or below p's. */
  function BishopMoves(p: Position): (r: seq<Position>)
    ensures forall q :: q in r <==> OnBoard(q) && ForwardDiagonal(p, q)
    ensures forall q :: q in r ==> q.y > p.y
    ensures Distinct(r) && |r| <= 14
  {
    BishopCandidatesAreForward(p);
    KeepOnBoardMembers(BishopCandidates(p));
    KeepOnBoardDistinct(BishopCandidates(p));
    KeepOnBoard(BishopCandidates(p))
  }

  // ----- King -----

  /** One step apart in any of the eight directions. */
  predicate Adjacent(p: Position, q: Position) {
    q != p && Abs(q.x - p.x) <= 1 && Abs(q.y - p.y) <= 1
  }

  /** The eight neighbouring squares, in the order the rule lists them. */
  function KingCandidates(p: Position): seq<Position> {
    var x, y := p.x, p.y;
    [ Position(x + 1, y), Position(x - 1, y),
      Position(x, y + 1), Position(x, y - 1),
      Position(x + 1, y + 1), Position(x + 1, y - 1),
      Position(x - 1, y + 1), Position(x - 1, y - 1) ]
  }

  lemma KingCandidatesAreAdjacent(p: Position)
    ensures forall q :: q in KingCandidates(p) <==> Adjacent(p, q)
    ensures Distinct(KingCandidates(p))
  {
    forall q | Adjacent(p, q)
      ensures q in KingCandidates(p)
    {
      var c := KingCandidates(p);
      if q.x - p.x == 1 && q.y == p.y { assert q == c[0]; }
      else if q.x - p.x == -1 && q.y == p.y { assert q == c[1]; }
      else if q.x == p.x && q.y - p.y == 1 { assert q == c[2]; }
      else if q.x == p.x && q.y - p.y == -1 { assert q == c[3]; }
      else if q.x - p.x == 1 && q.y - p.y == 1 { assert q == c[4]; }
      else if q.x - p.x == 1 && q.y - p.y == -1 { assert q == c[5]; }
      else if q.x - p.x == -1 && q.y - p.y == 1 { assert q == c[6]; }
      else { assert q == c[7]; }
    }
  }

  /** King rule: exactly the on-board neighbours, at most eight, none repeated. */
  function KingMoves(p: Position): (r: seq<Position>)
    ensures forall q :: q in r <==> OnBoard(q) && Adjacent(p, q)
    ensures Distinct(r) && |r| <= 8
  {
    KingCandidatesAreAdjacent(p);
    KeepOnBoardMembers(KingCandidates(p));
    KeepOnBoardDistinct(KingCandidates(p));
    KeepOnBoard(KingCandidates(p))
  }

  /** Away from the edge all eight neighbours are returned, in the listed order. */
  lemma KingInteriorKeepsAll(p: Position)
    requires 2 <= p.x <= 7 && 2 <= p.y <= 7
    ensures KingMoves(p) == KingCandidates(p)
    ensures |KingMoves(p)| == 8
  {
    KeepOnBoardAllOn(KingCandidates(p));
  }

  // ----- The rule interface -----

  /** What every rule's enumeration promises: destinations on the board,
      never the rule's own square, no repeats, and no more than the rule's
      candidate count. */
  function AllMoves(rule: MoveRule): (r: seq<Position>)
    ensures forall q :: q in r ==> OnBoard(q)
    ensures rule.from !in r
    ensures Distinct(r)
    ensures |r| <= if rule.BishopMove? then 14 else 8
  {
    match rule
    case KnightMove(p) => KnightMoves(p)
    case BishopMove(p) => BishopMoves(p)
    case KingMove(p) => KingMoves(p)
  }

  // ----- Concrete squares -----

  /** A knight on (2,3): six moves, in the rule's listed order. */
  lemma KnightFromB3()
    ensures KnightMoves(Position(2, 3))
         == [Position(4, 4), Position(3, 5), Position(1, 5),
             Position(1, 1), Position(3, 1), Position(4, 2)]
  {
    KnightFilterFromB3(KnightCandidates(Position(2, 3)));
  }

  // The candidate list is passed in as a parameter equal to its value, rather
  // than written as KnightCandidates(Position(2, 3)), so that the contracts of
  // the rule functions stay out of the solver's context while the filter is
  // unrolled; KnightFromB3 supplies the actual list.
  lemma KnightFilterFromB3(c: seq<Position>)
    requires c == [Position(4, 4), Position(3, 5), Position(1, 5), Position(0, 4),
                   Position(0, 2), Position(1, 1), Position(3, 1), Position(4, 2)]
    ensures KeepOnBoard(c) == [Position(4, 4), Position(3, 5), Position(1, 5),
                               Position(1, 1), Position(3, 1), Position(4, 2)]
  {
    assert c[8..] == [];
    KeepOnBoardAt(c, 7);
    KeepOnBoardAt(c, 6);
    KeepOnBoardAt(c, 5);
    KeepOnBoardAt(c, 4);
    KeepOnBoardAt(c, 3);
    KeepOnBoardAt(c, 2);
    KeepOnBoardAt(c, 1);
    KeepOnBoardAt(c, 0);
    assert c[0..] == c;
  }

  /** A bishop on (4,5): three squares up each forward diagonal, nothing on
      the two backward diagonals such as (3,4) or (5,4). */
  lemma BishopFromD5()
    ensures BishopMoves(Position(4, 5))
         == [Position(5, 6), Position(6, 7), Position(7, 8),
             Position(3, 6), Position(2, 7), Position(1, 8)]
    ensures Position(3, 4) !in BishopMoves(Position(4, 5))
    ensures Position(5, 4) !in BishopMoves(Position(4, 5))
  {
    BishopFilterFromD5(Position(4, 5));
  }

  lemma BishopFilterFromD5(p: Position)
    requires p == Position(4, 5)
    ensures KeepOnBoard(BishopCandidates(p))
         == [Position(5, 6), Position(6, 7), Position(7, 8),
             Position(3, 6), Position(2, 7), Position(1, 8)]
  {
    BishopRayFromD5(p, UpRight);
    BishopRayFromD5(p, UpLeft);
    KeepOnBoardAppend(Ray(p, UpRight, 1), Ray(p, UpLeft, 1));
  }

  /** Along either forward diagonal from (4,5), the first three squares are
      on the board and the remaining four are past the last rank. */
  lemma BishopRayFromD5(p: Position, d: Diagonal)
    requires p == Position(4, 5)
    ensures KeepOnBoard(Ray(p, d, 1))
         == [Position(Step(d, 4, 1), 6), Position(Step(d, 4, 2), 7), Position(Step(d, 4, 3), 8)]
  {
    var r := Ray(p, d, 1);
    assert r[..3] == [Position(Step(d, 4, 1), 6), Position(Step(d, 4, 2), 7), Position(Step(d, 4, 3), 8)];
    assert forall i :: 0 <= i < 3 ==> OnBoard(r[i]);
    assert forall i :: 3 <= i < |r| ==> !OnBoard(r[i]);
    KeepOnBoardPrefix(r, 3);
  }

  /** A king in the corner (1,1): exactly three moves. */
  lemma KingFromA1()
    ensures KingMoves(Position(1, 1)) == [Position(2, 1), Position(1, 2), Position(2, 2)]
    ensures |KingMoves(Position(1, 1))| == 3
  {
    KingFilterFromA1(KingCandidates(Position(1, 1)));
  }

  // As for KnightFilterFromB3: the literal parameter keeps the rule functions'
  // contracts out of the solver's context; KingFromA1 supplies the actual list.
  lemma KingFilterFromA1(c: seq<Position>)
    requires c == [Position(2, 1), Position(0, 1), Position(1, 2), Position(1, 0),
                   Position(2, 2), Position(2, 0), Position(0, 2), Position(0, 0)]
    ensures KeepOnBoard(c) == [Position(2, 1), Position(1, 2), Position(2, 2)]
  {
    assert c[8..] == [];
    KeepOnBoardAt(c, 7);
    KeepOnBoardAt(c, 6);
    KeepOnBoardAt(c, 5);
    KeepOnBoardAt(c, 4);
    KeepOnBoardAt(c, 3);
    KeepOnBoardAt(c, 2);
    KeepOnBoardAt(c, 1);
    KeepOnBoardAt(c, 0);
    assert c[0..] == c;
  }
}
