/**
 The 8x8 board: squares as (file, rank) pairs of unbounded integers, the
 bounds check every move rule applies to its candidates, and the filter that
 drops out-of-range candidates while keeping the order of the rest.
 */
module Board {

  /** A square (x = file, y = rank). Nothing in the type keeps it on the board. */
  datatype Position = Position(x: int, y: int)

  /** Both coordinates lie in 1..8 inclusive. */
  predicate OnBoard(p: Position) {
    1 <= p.x <= 8 && 1 <= p.y <= 8
  }

  /** No square occurs twice. */
  predicate Distinct(s: seq<Position>) {
    forall i, j :: 0 <= i < j < |s| ==> s[i] != s[j]
  }

  /** Keeps, in order, the candidates that are on the board; the others are
      dropped silently, never reported. */
  function KeepOnBoard(s: seq<Position>): (r: seq<Position>)
    ensures |r| <= |s|
  {
    if s == [] then []
    else if OnBoard(s[0]) then [s[0]] + KeepOnBoard(s[1..])
    else KeepOnBoard(s[1..])
  }

  /** A square survives the filter exactly when it is a candidate on the board. */
  lemma {:induction false} KeepOnBoardMembers(s: seq<Position>)
    ensures forall q :: q in KeepOnBoard(s) <==> q in s && OnBoard(q)
  {
    if s != [] {
      KeepOnBoardMembers(s[1..]);
      assert s == [s[0]] + s[1..];
    }
  }

  /** The filter never introduces a repeat. */
  lemma {:induction false} KeepOnBoardDistinct(s: seq<Position>)
    requires Distinct(s)
    ensures Distinct(KeepOnBoard(s))
  {
    if s != [] {
      KeepOnBoardDistinct(s[1..]);
      KeepOnBoardMembers(s[1..]);
      assert s[0] !in s[1..];
    }
  }

  /** When every candidate is on the board, nothing is dropped and the order
      is unchanged. */
  lemma {:induction false} KeepOnBoardAllOn(s: seq<Position>)
    requires forall q :: q in s ==> OnBoard(q)
    ensures KeepOnBoard(s) == s
  {
    if s != [] {
      assert s[0] in s;
      assert forall q :: q in s[1..] ==> q in s;
      KeepOnBoardAllOn(s[1..]);
    }
  }

  /** Filtering distributes over concatenation, which pins down the order of
      the result: each part of the candidate list is filtered in place. */
  lemma {:induction false} KeepOnBoardAppend(a: seq<Position>, b: seq<Position>)
    ensures KeepOnBoard(a + b) == KeepOnBoard(a) + KeepOnBoard(b)
  {
    if a == [] {
      assert a + b == b;
    } else {
      assert (a + b)[1..] == a[1..] + b;
      KeepOnBoardAppend(a[1..], b);
    }
  }

  /** A list whose first n squares are on the board and whose remaining
      squares are all off it filters to its first n squares. */
  lemma {:induction false} KeepOnBoardPrefix(s: seq<Position>, n: nat)
    requires n <= |s|
    requires forall i :: 0 <= i < n ==> OnBoard(s[i])
    requires forall i :: n <= i < |s| ==> !OnBoard(s[i])
    ensures KeepOnBoard(s) == s[..n]
  {
    if s != [] {
      KeepOnBoardPrefix(s[1..], if n == 0 then 0 else n - 1);
      if n > 0 {
        assert s[..n] == [s[0]] + s[1..][..n - 1];
      }
    }
  }

  /** One step of the filter at position i of a candidate list. */
  lemma KeepOnBoardAt(s: seq<Position>, i: nat)
    requires i < |s|
    ensures KeepOnBoard(s[i..]) == (if OnBoard(s[i]) then [s[i]] else []) + KeepOnBoard(s[i + 1..])
  {
    assert s[i..][1..] == s[i + 1..];
  }

  /** Two duplicate-free lists with no square in common join into a
      duplicate-free list. */
  lemma DistinctAppend(a: seq<Position>, b: seq<Position>)
    requires Distinct(a) && Distinct(b)
    requires forall q :: q in a ==> q !in b
    ensures Distinct(a + b)
  {
    forall i, j | 0 <= i < j < |a + b|
      ensures (a + b)[i] != (a + b)[j]
    {
      if j < |a| {
      } else if i < |a| {
        assert (a + b)[i] in a && (a + b)[j] in b;
      } else {
        assert (a + b)[i] == b[i - |a|] && (a + b)[j] == b[j - |a|];
      }
    }
  }
}
