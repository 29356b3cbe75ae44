/// The pure part of a tower: where the next ring is seated and which ring is on top.
module Stacking {
  import opened Wrappers

  /// Height of every ring, in pixels.
  const RING_HEIGHT: int := 40

  /// A point on the screen (y grows downwards, as in the engine).
  datatype Vec2 = Vec2(x: int, y: int)

  /// The seat handed out for the ring that ends up at position `index` of a tower's
  /// stack (0 is the bottom) when the tower is anchored at (x0, y0).
  function Seat(x0: int, y0: int, index: nat): (seat: Vec2)
    ensures seat.x == x0
    ensures index == 0 ==> seat == Vec2(x0, y0)
    ensures y0 - seat.y == index * RING_HEIGHT
    ensures index > 0 ==> seat.y < y0
  {
    Vec2(x0, y0 - index * RING_HEIGHT)
  }

  /// The seats returned by `count` successive additions to a tower anchored at
  /// (x0, y0) that already holds `start` rings: the k-th addition (from 0) gets the
  /// seat of stack position start + k, one ring height above the previous one.
  function Seats(x0: int, y0: int, start: nat, count: nat): (s: seq<Vec2>)
    ensures |s| == count
    ensures forall k :: 0 <= k < count ==> s[k] == Seat(x0, y0, start + k)
    ensures forall k :: 0 < k < count ==> s[k].x == s[k - 1].x && s[k].y == s[k - 1].y - RING_HEIGHT
    decreases count
  {
    if count == 0 then []
    else Seats(x0, y0, start, count - 1) + [Seat(x0, y0, start + count - 1)]
  }

  /// Adding m rings and then n more hands out the same seats as adding m + n at once.
  lemma SeatsSplit(x0: int, y0: int, start: nat, m: nat, n: nat)
    ensures Seats(x0, y0, start, m + n) == Seats(x0, y0, start, m) + Seats(x0, y0, start + m, n)
  {
  }

  /// Rings are drawn with their origin at the bottom, so a ring seated at y covers
  /// [y - RING_HEIGHT, y]. Seats handed out later lie wholly above earlier ones:
  /// stacked rings never overlap.
  lemma SeatsDoNotOverlap(x0: int, y0: int, start: nat, count: nat, j: nat, k: nat)
    requires j < k < count
    ensures Seats(x0, y0, start, count)[k].y <= Seats(x0, y0, start, count)[j].y - RING_HEIGHT
    ensures Seats(x0, y0, start, count)[j].y - Seats(x0, y0, start, count)[k].y == (k - j) * RING_HEIGHT
  {
  }

  /// The last element of a list, or None for an empty one.
  function Top<T>(s: seq<T>): (r: Option<T>)
    ensures r.None? <==> s == []
    ensures r.Some? ==> r.value == s[|s| - 1] && r.value in s
  {
    if s == [] then None else Some(s[|s| - 1])
  }

  /// After appending `pushed` to a list, the top is the last element pushed, or the
  /// old top if nothing was pushed.
  lemma TopAfterPushes<T>(s: seq<T>, pushed: seq<T>)
    ensures Top(s + pushed) == if pushed == [] then Top(s) else Some(pushed[|pushed| - 1])
  {
  }
}
