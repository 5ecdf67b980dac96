/** Which nodes the four loop nests of move (python_dim.py:250-271) write, per direction. */
module Streaming {
  import opened D2Q9

  /** Whether move writes population k at node (i, j) of the (lx + 1) x (ly + 1) grid. Each
      direction is streamed only over the range of its own loop nest, so some edge nodes keep
      their value (f1 on row 0, f2 in column lx, f4 in column 0, ...), and f0 never moves. */
  predicate Streams(k: int, i: int, j: int, lx: int, ly: int)
    requires 0 <= k < NumJumpers
  {
    match k
    case 2 => 0 <= i < lx && 1 <= j <= ly
    case 6 => 0 <= i < lx && 1 <= j <= ly
    case 1 => 1 <= i <= lx && 1 <= j <= ly
    case 5 => 1 <= i <= lx && 1 <= j <= ly
    case 4 => 1 <= i <= lx && 0 <= j < ly
    case 8 => 1 <= i <= lx && 0 <= j < ly
    case 3 => 0 <= i < lx && 0 <= j < ly
    case 7 => 0 <= i < lx && 0 <= j < ly
    case _ => false
  }

  /** Every streamed node lies in the grid, and so does the upstream node it reads,
      (i - cx[k], j - cy[k]); the rest population never streams. */
  lemma StreamsFromInside(k: int, i: int, j: int, lx: int, ly: int)
    requires 0 <= k < NumJumpers
    requires Streams(k, i, j, lx, ly)
    ensures k != 0
    ensures 0 <= i <= lx && 0 <= j <= ly
    ensures 0 <= i - Cx(k) <= lx && 0 <= j - Cy(k) <= ly
  {
  }

  /** On the interior of the grid every moving population streams. */
  lemma InteriorStreams(k: int, i: int, j: int, lx: int, ly: int)
    requires 1 <= k < NumJumpers
    requires 0 < i < lx && 0 < j < ly
    ensures Streams(k, i, j, lx, ly)
  {
  }
}
