/**
 A chess piece: its current square, its colour, how many moves it has made,
 and the movement rule it was given when it was created. Moving changes the
 square and the counter only; the rule keeps the square it was created with,
 so the moves a piece reports are always those from its starting square.
 */
module Pieces {
  import opened Board
  import opened MoveRules

  /** Outcome of a move request. The human-readable message that accompanies
      it is not modelled. */
  datatype Status = Success | Failure

  /** The check `validate_position` applies to a coordinate list: every
      coordinate lies in 1..8 (so an empty list passes). */
  function AllInRange(coords: seq<int>): (b: bool)
    ensures b <==> forall i :: 0 <= i < |coords| ==> 1 <= coords[i] <= 8
  {
    coords == [] || (1 <= coords[0] <= 8 && AllInRange(coords[1..]))
  }

  class Piece {
    var position: Position
    var color: string
    var numberOfMoves: nat
    var moveRule: MoveRule

    /** The square the piece was created on. */
    ghost const origin: Position
    /** The destinations of the successful moves so far, oldest first. */
    ghost var trail: seq<Position>

    /** The counter counts the successful moves, the current square is the
        last destination (or the starting square before any move), and every
        destination was on the board. */
    ghost predicate Valid()
      reads this
    {
      && numberOfMoves == |trail|
      && position == (if trail == [] then origin else trail[|trail| - 1])
      && (forall i :: 0 <= i < |trail| ==> OnBoard(trail[i]))
    }

    /** A piece with an arbitrary rule. The starting square is not checked. */
    constructor (position: Position, color: string, moveRule: MoveRule)
      ensures Valid()
      ensures this.position == position && this.color == color && this.moveRule == moveRule
      ensures numberOfMoves == 0 && origin == position && trail == []
    {
      this.position := position;
      this.color := color;
      this.numberOfMoves := 0;
      this.moveRule := moveRule;
      this.origin := position;
      this.trail := [];
    }

    /** A knight, its rule bound to the starting square. */
    constructor Knight(position: Position, color: string)
      ensures Valid()
      ensures this.position == position && this.color == color && moveRule == KnightMove(position)
      ensures numberOfMoves == 0 && origin == position && trail == []
    {
      this.position := position;
      this.color := color;
      this.numberOfMoves := 0;
      this.moveRule := KnightMove(position);
      this.origin := position;
      this.trail := [];
    }

    /** A bishop, its rule bound to the starting square. */
    constructor Bishop(position: Position, color: string)
      ensures Valid()
      ensures this.position == position && this.color == color && moveRule == BishopMove(position)
      ensures numberOfMoves == 0 && origin == position && trail == []
    {
      this.position := position;
      this.color := color;
      this.numberOfMoves := 0;
      this.moveRule := BishopMove(position);
      this.origin := position;
      this.trail := [];
    }

    /** A king, its rule bound to the starting square. */
    constructor King(position: Position, color: string)
      ensures Valid()
      ensures this.position == position && this.color == color && moveRule == KingMove(position)
      ensures numberOfMoves == 0 && origin == position && trail == []
    {
      this.position := position;
      this.color := color;
      this.numberOfMoves := 0;
      this.moveRule := KingMove(position);
      this.origin := position;
      this.trail := [];
    }

    /** True exactly when both coordinates are in 1..8; reads no state. */
    static function ValidatePosition(p: Position): (b: bool)
      ensures b <==> OnBoard(p)
    {
      var coords := [p.x, p.y];
      assert coords[0] == p.x && coords[1] == p.y;
      AllInRange(coords)
    }

    /** Moves to newPosition if it is on the board: the square is overwritten
        and the counter goes up by exactly one. Otherwise nothing changes and
        Failure is returned. The rule and the colour are never touched. */
    method Move(newPosition: Position) returns (status: Status)
      requires Valid()
      modifies this`position, this`numberOfMoves, this`trail
      ensures Valid()
      ensures status == Success <==> OnBoard(newPosition)
      ensures status == Success ==>
                position == newPosition && numberOfMoves == old(numberOfMoves) + 1
                && trail == old(trail) + [newPosition]
      ensures status == Failure ==>
                position == old(position) && numberOfMoves == old(numberOfMoves)
                && trail == old(trail)
      ensures moveRule == old(moveRule) && color == old(color)
    {
      if !ValidatePosition(newPosition) {
        return Failure;
      }
      position := newPosition;
      numberOfMoves := numberOfMoves + 1;
      trail := trail + [newPosition];
      return Success;
    }

    /** The current square; once the piece has moved it is on the board. */
    method GetPosition() returns (p: Position)
      requires Valid()
      ensures p == position
      ensures numberOfMoves > 0 ==> OnBoard(p)
    {
      p := position;
    }

    /** The rule's moves, computed from the square the rule was created with,
        which is not necessarily the piece's current square. */
    method GetAllMoves() returns (moves: seq<Position>)
      ensures moves == AllMoves(moveRule)
      ensures forall q :: q in moves ==> OnBoard(q)
    {
      moves := AllMoves(moveRule);
    }
  }

  /** A knight created on (2,3) and moved to (4,4) reports the same moves as
      before the move, the moves from (2,3), which differ from the moves from
      (4,4). */
  method KnightKeepsStartingMoves() returns (before: seq<Position>, after: seq<Position>)
    ensures before == after == KnightMoves(Position(2, 3))
    ensures after != KnightMoves(Position(4, 4))
  {
    var knight := new Piece.Knight(Position(2, 3), "white");
    before := knight.GetAllMoves();
    var status := knight.Move(Position(4, 4));
    after := knight.GetAllMoves();
    KnightFromB3();
    assert Position(4, 4) in after && Position(4, 4) !in KnightMoves(Position(4, 4));
  }

  /** Three successful moves from a fresh king, then one to (9,9): the counter
      is 3, the square is the last successful destination, and the off-board
      request fails. No move is checked against the rule's pattern. */
  method ThreeMovesThenOffBoard() returns (p: Position, n: nat, last: Status)
    ensures p == Position(5, 5) && n == 3 && last == Failure
  {
    var king := new Piece.King(Position(1, 1), "black");
    var s1 := king.Move(Position(2, 2));
    var s2 := king.Move(Position(3, 3));
    var s3 := king.Move(Position(5, 5));
    last := king.Move(Position(9, 9));
    p := king.GetPosition();
    n := king.numberOfMoves;
  }
}
