/** The chunk-paging rules of the camera: which chunk the view is centred on,
    how far around it chunks are requested, and the chunk store those
    requests go to. The floating-point borders the camera derives from its
    position arrive here as integers. */
module ChunkPaging {
  import opened JavaInt

  /** A chunk's coordinates in the chunk grid. */
  type ChunkCoord = (int, int)

  /** The loading radius a camera starts with. */
  const InitialLoadingRadius := 10
  /** The radius a loading pass clamps the loading radius to afterwards. */
  const ReducedLoadingRadius := 2

  /** A squared integer exceeds 1 exactly when the integer is at least 2 away from 0. */
  lemma SquareAboveOne(d: int)
    ensures d * d > 1 <==> Abs(d) > 1
  {
    if Abs(d) > 1 {
      assert d * d == Abs(d) * Abs(d);
      assert Abs(d) * Abs(d) >= 2 * Abs(d);
    }
  }

  /** One update of the centre chunk's X coordinate.
      `leftBorder` and `rightBorder` are the visible borders in grid units,
      `absChunkX` the chunk containing the focus point and `blocksX` the
      chunk width in blocks. The tracked centre moves by at most one chunk,
      unless the focus point's chunk is two or more chunks away from the old
      centre: then it snaps to that chunk. A left border crossing steps it
      left; the right border is then tested against the stepped centre, and
      a crossing there steps it right. The tracked centre therefore never
      lags more than two chunks behind the focus point. */
  function StepCenterX(oldX: int, leftBorder: int, rightBorder: int, absChunkX: int, blocksX: int): (r: int)
    ensures Abs(absChunkX - oldX) > 1 ==> r == absChunkX
    ensures Abs(absChunkX - oldX) <= 1 ==> Abs(r - oldX) <= 1
    ensures Abs(r - absChunkX) <= 2
    ensures Abs(absChunkX - oldX) <= 1 && leftBorder >= (oldX - 1) * blocksX && rightBorder < (oldX + 2) * blocksX
      ==> r == oldX
    ensures Abs(absChunkX - oldX) <= 1 && leftBorder < (oldX - 1) * blocksX && rightBorder < (oldX + 1) * blocksX
      ==> r == oldX - 1
    ensures Abs(absChunkX - oldX) <= 1 && leftBorder >= (oldX - 1) * blocksX && rightBorder >= (oldX + 2) * blocksX
      ==> r == oldX + 1
    ensures Abs(absChunkX - oldX) <= 1 && leftBorder < (oldX - 1) * blocksX && rightBorder >= (oldX + 1) * blocksX
      ==> r == oldX
  {
    var afterLeft := if leftBorder < (oldX - 1) * blocksX then oldX - 1 else oldX;
    var afterRight := if rightBorder >= (afterLeft + 2) * blocksX then afterLeft + 1 else afterLeft;
    var dxMovement := absChunkX - oldX;
    SquareAboveOne(dxMovement);
    if dxMovement * dxMovement > 1 then absChunkX else afterRight
  }

  /** The half-height (in Y) of the loading neighbourhood of X half-width
      `radius`: half the radius, but at least 2. Java's truncating `radius/2`
      and Dafny's flooring one differ only for negative radii, where both
      are below 2. */
  function HalfHeight(radius: int): (h: int)
    ensures h >= 2
    ensures radius >= 4 ==> 2 * h <= radius <= 2 * h + 1
    ensures radius < 4 ==> h == 2
  {
    var half := radius / 2;
    if half < 2 then 2 else half
  }

  /** `p` lies in the loading neighbourhood of radius `radius` around (cx, cy). */
  predicate InNeighbourhood(p: ChunkCoord, cx: int, cy: int, radius: int) {
    && -radius <= p.0 - cx <= radius
    && -HalfHeight(radius) <= p.1 - cy <= HalfHeight(radius)
  }

  /** The loading gate: a pass only loads at the origin chunk or when dynamic
      chunk switching is configured. */
  predicate LoadGateOpen(cx: int, cy: int, chunkSwitch: bool) {
    (cx == 0 && cy == 0) || chunkSwitch
  }

  /** The radius after an open-gate pass: clamped down to 2, never raised. */
  function ShrinkRadius(radius: int): (r: int)
    ensures r <= radius
    ensures r <= ReducedLoadingRadius || r == radius
    ensures radius >= ReducedLoadingRadius ==> r == ReducedLoadingRadius
  {
    if radius > ReducedLoadingRadius then ReducedLoadingRadius else radius
  }

  /** The loading radius after a series of passes, `gates[k]` telling whether
      the gate of the k-th pass was open. */
  function RadiusAfter(radius: int, gates: seq<bool>): int
    decreases |gates|
  {
    if gates == [] then radius
    else RadiusAfter(if gates[0] then ShrinkRadius(radius) else radius, gates[1..])
  }

  /** The loading radius never grows; it shrinks exactly once, at the first
      open-gate pass, and stays put after that. */
  lemma {:induction false} RadiusShrinksOnce(radius: int, gates: seq<bool>)
    ensures RadiusAfter(radius, gates) <= radius
    ensures true in gates ==> RadiusAfter(radius, gates) == ShrinkRadius(radius)
    ensures true !in gates ==> RadiusAfter(radius, gates) == radius
    decreases |gates|
  {
    if gates != [] {
      var next := if gates[0] then ShrinkRadius(radius) else radius;
      RadiusShrinksOnce(next, gates[1..]);
      assert gates == [gates[0]] + gates[1..];
      if gates[0] {
        assert ShrinkRadius(next) == next;
      }
    }
  }

  /** The chunks a pass's loops have visited before reaching offset (x, y):
      the loops run over X offsets outside and Y offsets inside. */
  ghost predicate Visited(p: ChunkCoord, cx: int, cy: int, radius: int, x: int, y: int) {
    && InNeighbourhood(p, cx, cy, radius)
    && (p.0 - cx < x || (p.0 - cx == x && p.1 - cy < y))
  }

  /** What a pass has done by the time its loops reach offset (x, y):
      `loaded0`/`log0` are the store's chunks and load requests before the
      pass, `loaded`/`log` after the visited part of it. */
  ghost predicate PassedUpTo(loaded0: set<ChunkCoord>, log0: seq<ChunkCoord>,
                             loaded: set<ChunkCoord>, log: seq<ChunkCoord>,
                             cx: int, cy: int, radius: int, x: int, y: int)
  {
    && (forall p :: p in loaded <==> p in loaded0 || Visited(p, cx, cy, radius, x, y))
    && log0 <= log
    && (forall k :: |log0| <= k < |log| ==> Visited(log[k], cx, cy, radius, x, y) && log[k] !in loaded0)
    && (forall p :: Visited(p, cx, cy, radius, x, y) && p !in loaded0 ==> p in log[|log0|..])
    && (forall i, j :: |log0| <= i < j < |log| ==> log[i] != log[j])
  }

  /** One step of a pass: visiting offset (x, y) inside the neighbourhood
      requests the chunk there if, and only if, it is missing. */
  lemma {:induction false} VisitOne(loaded0: set<ChunkCoord>, log0: seq<ChunkCoord>,
                                    loaded: set<ChunkCoord>, log: seq<ChunkCoord>,
                                    loaded': set<ChunkCoord>, log': seq<ChunkCoord>,
                                    cx: int, cy: int, radius: int, x: int, y: int)
    requires PassedUpTo(loaded0, log0, loaded, log, cx, cy, radius, x, y)
    requires -radius <= x <= radius && -HalfHeight(radius) <= y <= HalfHeight(radius)
    requires (cx + x, cy + y) in loaded ==> loaded' == loaded && log' == log
    requires (cx + x, cy + y) !in loaded ==> loaded' == loaded + {(cx + x, cy + y)} && log' == log + [(cx + x, cy + y)]
    ensures PassedUpTo(loaded0, log0, loaded', log', cx, cy, radius, x, y + 1)
  {
    var q := (cx + x, cy + y);
    assert Visited(q, cx, cy, radius, x, y + 1) && !Visited(q, cx, cy, radius, x, y);
    forall p
      ensures Visited(p, cx, cy, radius, x, y + 1) <==> Visited(p, cx, cy, radius, x, y) || p == q
    {
    }
    if q !in loaded {
      assert q !in loaded0;
      assert log'[|log0|..] == log[|log0|..] + [q];
      forall i, j | |log0| <= i < j < |log'|
        ensures log'[i] != log'[j]
      {
        if j == |log| {
          assert log[i] in log[|log0|..];
          assert log[i] in loaded;
        }
      }
    }
  }

  /** Before the loops start nothing is visited: the store is as it was. */
  lemma PassStarts(loaded0: set<ChunkCoord>, log0: seq<ChunkCoord>, cx: int, cy: int, radius: int)
    ensures PassedUpTo(loaded0, log0, loaded0, log0, cx, cy, radius, -radius, -HalfHeight(radius))
  {
    var left, bottom := -radius, -HalfHeight(radius);
    forall p ensures !Visited(p, cx, cy, radius, left, bottom) {
    }
  }

  /** Finishing column x of the neighbourhood is starting column x + 1. */
  lemma NextColumn(loaded0: set<ChunkCoord>, log0: seq<ChunkCoord>,
                   loaded: set<ChunkCoord>, log: seq<ChunkCoord>,
                   cx: int, cy: int, radius: int, x: int)
    requires PassedUpTo(loaded0, log0, loaded, log, cx, cy, radius, x, HalfHeight(radius) + 1)
    ensures PassedUpTo(loaded0, log0, loaded, log, cx, cy, radius, x + 1, -HalfHeight(radius))
  {
    var next, top, bottom := x + 1, HalfHeight(radius) + 1, -HalfHeight(radius);
    forall p
      ensures Visited(p, cx, cy, radius, next, bottom) <==> Visited(p, cx, cy, radius, x, top)
    {
    }
  }

  /** Once every column is visited, the pass has loaded the neighbourhood. */
  lemma PassEnds(loaded0: set<ChunkCoord>, log0: seq<ChunkCoord>,
                 loaded: set<ChunkCoord>, log: seq<ChunkCoord>,
                 cx: int, cy: int, radius: int)
    requires PassedUpTo(loaded0, log0, loaded, log, cx, cy, radius, radius + 1, -HalfHeight(radius))
    ensures LoadedAround(loaded0, log0, loaded, log, cx, cy, radius)
  {
    var past, bottom := radius + 1, -HalfHeight(radius);
    forall p
      ensures Visited(p, cx, cy, radius, past, bottom) <==> InNeighbourhood(p, cx, cy, radius)
    {
    }
  }

  /** The effect of a complete open-gate pass around (cx, cy): every chunk of
      the neighbourhood is loaded, chunks loaded before stay loaded, nothing
      outside the neighbourhood is loaded, and the load requests are exactly
      the neighbourhood chunks that were missing, each requested once. */
  ghost predicate LoadedAround(loaded0: set<ChunkCoord>, log0: seq<ChunkCoord>,
                               loaded: set<ChunkCoord>, log: seq<ChunkCoord>,
                               cx: int, cy: int, radius: int)
  {
    && (forall p :: p in loaded <==> p in loaded0 || InNeighbourhood(p, cx, cy, radius))
    && log0 <= log
    && (forall k :: |log0| <= k < |log| ==> InNeighbourhood(log[k], cx, cy, radius) && log[k] !in loaded0)
    && (forall p :: InNeighbourhood(p, cx, cy, radius) && p !in loaded0 ==> p in log[|log0|..])
    && (forall i, j :: |log0| <= i < j < |log| ==> log[i] != log[j])
  }

  /** The whole effect of one call of the chunk check, gate included:
      radii `r0`/`r1` before and after, centre (cx, cy). */
  ghost predicate PassEffect(loaded0: set<ChunkCoord>, log0: seq<ChunkCoord>,
                             loaded: set<ChunkCoord>, log: seq<ChunkCoord>,
                             r0: int, r1: int, cx: int, cy: int, chunkSwitch: bool)
  {
    if LoadGateOpen(cx, cy, chunkSwitch) then
      LoadedAround(loaded0, log0, loaded, log, cx, cy, r0) && r1 == ShrinkRadius(r0)
    else
      loaded == loaded0 && log == log0 && r1 == r0
  }

  /** A smaller radius gives a smaller neighbourhood. */
  lemma NeighbourhoodMonotone(p: ChunkCoord, cx: int, cy: int, small: int, large: int)
    requires small <= large
    requires InNeighbourhood(p, cx, cy, small)
    ensures InNeighbourhood(p, cx, cy, large)
  {
  }

  /** A second open-gate pass around the same centre with a radius no larger
      than the first requests nothing and loads nothing. */
  lemma {:induction false} SecondPassRequestsNothing(
    loaded0: set<ChunkCoord>, log0: seq<ChunkCoord>,
    loaded1: set<ChunkCoord>, log1: seq<ChunkCoord>,
    loaded2: set<ChunkCoord>, log2: seq<ChunkCoord>,
    cx: int, cy: int, r0: int, r1: int)
    requires LoadedAround(loaded0, log0, loaded1, log1, cx, cy, r0)
    requires LoadedAround(loaded1, log1, loaded2, log2, cx, cy, r1)
    requires r1 <= r0
    ensures loaded2 == loaded1
    ensures log2 == log1
  {
    forall p | InNeighbourhood(p, cx, cy, r1)
      ensures p in loaded1
    {
      NeighbourhoodMonotone(p, cx, cy, r1, r0);
    }
    if log2 != [] {
      // were the newest request one of the second pass, that chunk would be
      // both loaded after the first pass and missing before the second
      ghost var newest := log2[|log2| - 1];
      assert |log1| < |log2| ==> newest in loaded1;
    }
  }

  /** The map's chunk store as the camera uses it: a query whether a chunk
      is present and a request to load one. `requests` records every load
      request in order, so that what a pass requested can be stated. */
  class ChunkStore {
    /** Chunk width in blocks. */
    const blocksX: int
    var loaded: set<ChunkCoord>
    ghost var requests: seq<ChunkCoord>

    constructor (blocksX: int, loaded: set<ChunkCoord>)
      ensures this.blocksX == blocksX && this.loaded == loaded && requests == []
    {
      this.blocksX := blocksX;
      this.loaded := loaded;
      requests := [];
    }

    /** The chunk at (x, y) is present. */
    predicate HasChunk(x: int, y: int)
      reads this
    {
      (x, y) in loaded
    }

    /** Load the chunk at (x, y). */
    method LoadChunk(x: int, y: int)
      modifies this
      ensures loaded == old(loaded) + {(x, y)}
      ensures requests == old(requests) + [(x, y)]
    {
      loaded := loaded + {(x, y)};
      requests := requests + [(x, y)];
    }
  }
}
