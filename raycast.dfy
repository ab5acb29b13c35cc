/**
 * The discrete decisions of the per-pixel loop of src/Main.cpp: which
 * surface a ray hits first, the floor's shadow flag and checkerboard
 * palette entry, the cap on the number of bounces, and where each pixel is
 * written. The square-root distances and the reflection arithmetic are
 * inputs here.
 */
module Raycast {
  import opened Wrappers
  import Color
  import Scene

  /** The bound on loop iterations for one pixel. */
  const MaxSteps: nat := 2000

  /**
   * What the ray-sphere test computed for one sphere: the projection `sc`
   * of the centre onto the ray, the discriminant `aa`, and the hit distance
   * that follows from them when both are positive.
   */
  datatype Probe = Probe(proj: real, disc: real, dist: real)

  /** A sphere is a candidate hit when it lies ahead of the ray and the ray meets it. */
  predicate Hits(p: Probe) { p.proj > 0.0 && p.disc > 0.0 }

  /** The floor counts unless the ray starts on or below it or does not point down to it. */
  predicate FloorAhead(y: real, dy: real) { !(y >= 0.0 || dy <= 0.0) }

  /** The distance along the ray to the floor plane. */
  function FloorDistance(y: real, dy: real): real
    requires FloorAhead(y, dy)
  {
    (y / dy) * -1.0
  }

  /**
   * The nearest-hit selection. `n` is -1 for no hit, 0 for the floor and
   * k + 1 for sphere k; `s` is the distance of that hit. `sPrev` is the value
   * `s` held from the previous ray, which survives when nothing is hit. A
   * sphere replaces the best so far only if it is strictly nearer, so ties go
   * to the floor and then to the lowest sphere index.
   */
  method SelectNearest(y: real, dy: real, sPrev: real, probes: seq<Probe>) returns (n: int, s: real)
    ensures -1 <= n <= |probes|
    ensures n == -1 <==> !FloorAhead(y, dy) && forall k :: 0 <= k < |probes| ==> !Hits(probes[k])
    ensures n == -1 ==> s == sPrev
    ensures n == 0 ==> FloorAhead(y, dy) && s == FloorDistance(y, dy)
    ensures n > 0 ==> Hits(probes[n - 1]) && s == probes[n - 1].dist
    ensures n > 0 && FloorAhead(y, dy) ==> s < FloorDistance(y, dy)
    ensures n >= 0 ==> forall k :: 0 <= k < |probes| && Hits(probes[k]) ==> s <= probes[k].dist
    ensures n >= 0 ==> forall k :: 0 <= k < n - 1 && Hits(probes[k]) ==> s < probes[k].dist
  {
    n := if y >= 0.0 || dy <= 0.0 then -1 else 0;
    s := sPrev;
    if n == 0 {
      s := (y / dy) * -1.0;
    }
    var k := 0;
    while k < |probes|
      invariant 0 <= k <= |probes|
      invariant -1 <= n <= k
      invariant n == -1 <==> !FloorAhead(y, dy) && forall i :: 0 <= i < k ==> !Hits(probes[i])
      invariant n == -1 ==> s == sPrev
      invariant n == 0 ==> FloorAhead(y, dy) && s == FloorDistance(y, dy)
      invariant n > 0 ==> Hits(probes[n - 1]) && s == probes[n - 1].dist
      invariant n > 0 && FloorAhead(y, dy) ==> s < FloorDistance(y, dy)
      invariant n >= 0 ==> forall i :: 0 <= i < k && Hits(probes[i]) ==> s <= probes[i].dist
      invariant n >= 0 ==> forall i :: 0 <= i < n - 1 && Hits(probes[i]) ==> s < probes[i].dist
    {
      var p := probes[k];
      if p.proj > 0.0 {
        if p.disc > 0.0 {
          if p.dist < s || n < 0 {
            n := k + 1;
            s := p.dist;
          }
        }
      }
      k := k + 1;
    }
  }

  /** Whether a floor point lies inside the (x, z) footprint circle of sphere k. */
  predicate Shadowed(c: seq<Scene.Sphere>, q: seq<real>, k: int, x: real, z: real)
    requires 0 <= k < |c| && k < |q|
  {
    var u := c[k].x - x;
    var v := c[k].z - z;
    u * u + v * v <= q[k]
  }

  /** The shade flag `ba` of a floor hit: 1 under some sphere's footprint, otherwise 3. */
  method ShadowFlag(c: seq<Scene.Sphere>, q: seq<real>, x: real, z: real) returns (ba: int)
    requires |c| == |q|
    ensures ba == 1 || ba == 3
    ensures ba == 1 <==> exists k :: 0 <= k < |c| && Shadowed(c, q, k, x, z)
  {
    ba := 3;
    var k := 0;
    while k < |c|
      invariant 0 <= k <= |c|
      invariant ba == 3
      invariant forall i :: 0 <= i < k ==> !Shadowed(c, q, i, x, z)
    {
      var u := c[k].x - x;
      var v := c[k].z - z;
      if u * u + v * v <= q[k] {
        assert Shadowed(c, q, k, x, z);
        ba := 1;
        break;
      }
      k := k + 1;
    }
  }

  /** roundf: the nearest integer, halves rounded away from zero. */
  function RoundF(x: real): (n: int)
    ensures x - 0.5 <= n as real <= x + 0.5
    ensures n as real == x - 0.5 ==> x < 0.0
    ensures n as real == x + 0.5 ==> x > 0.0
  {
    if x >= 0.0 then (x + 0.5).Floor else -((-x + 0.5).Floor)
  }

  /** The parity test of the checkerboard; C++ `%` gives 0 for exactly the even values. */
  predicate Even(n: int) { n % 2 == 0 }

  /**
   * The palette index of a floor pixel: entry ba - 1 on tiles whose rounded
   * coordinates have equal parity, entry ba on the others. For the two values
   * ShadowFlag yields it is a valid index of the four-entry palette.
   */
  function PaletteIndex(ba: int, x2: real, z2: real): (i: int)
    requires ba == 1 || ba == 3
    ensures 0 <= i < |Color.Palette|
    ensures i == ba - 1 <==> (Even(RoundF(x2)) == Even(RoundF(z2)))
    ensures i == ba <==> (Even(RoundF(x2)) != Even(RoundF(z2)))
  {
    if Even(RoundF(x2)) == Even(RoundF(z2)) then ba - 1 else ba
  }

  /** Away from the half-way points, moving one unit along x moves the rounded value by one. */
  lemma RoundShift(x: real)
    requires x != -0.5
    ensures RoundF(x + 1.0) == RoundF(x) + 1
  {
  }

  /** Neighbouring floor tiles along x get different palette entries. */
  lemma Checkerboard(ba: int, x2: real, z2: real)
    requires ba == 1 || ba == 3
    requires x2 != -0.5
    ensures PaletteIndex(ba, x2 + 1.0, z2) != PaletteIndex(ba, x2, z2)
  {
    RoundShift(x2);
  }

  /** What one iteration of a pixel's loop decides: a final colour, or a reflected ray to follow. */
  datatype Step<S> = Done(color: bv32) | Reflect(next: S)

  /** The colour a ray settles on within `fuel` iterations, if any. */
  function Trace<S>(st: S, step: S -> Step<S>, fuel: nat): Option<bv32>
    decreases fuel
  {
    if fuel == 0 then None
    else match step(st)
      case Done(color) => Some(color)
      case Reflect(next) => Trace(next, step, fuel - 1)
  }

  /** A ray that settles within some bound settles on the same colour under any larger bound. */
  lemma {:induction false} TraceStable<S>(st: S, step: S -> Step<S>, fuel: nat, more: nat)
    requires fuel <= more && Trace(st, step, fuel).Some?
    ensures Trace(st, step, more) == Trace(st, step, fuel)
    decreases fuel
  {
    match step(st)
    case Done(_) =>
    case Reflect(next) => TraceStable(next, step, fuel - 1, more - 1);
  }

  /**
   * The counter-bounded do-while of one pixel. It returns the colour written,
   * or None when the counter passes 2000 and the pixel is left as it was, and
   * the number of iterations that ran.
   */
  method TraceRay<S>(start: S, step: S -> Step<S>) returns (color: Option<bv32>, steps: nat)
    ensures color == Trace(start, step, MaxSteps)
    ensures 1 <= steps <= MaxSteps
    ensures color.None? ==> steps == MaxSteps
  {
    var neverEndCycleAgent := 0;
    var st := start;
    color := None;
    steps := 0;
    while true
      invariant 0 <= neverEndCycleAgent <= MaxSteps && steps == neverEndCycleAgent
      invariant color.None?
      invariant Trace(start, step, MaxSteps) == Trace(st, step, MaxSteps - neverEndCycleAgent)
      decreases MaxSteps + 1 - neverEndCycleAgent
    {
      neverEndCycleAgent := neverEndCycleAgent + 1;
      if neverEndCycleAgent > MaxSteps {
        break;
      }
      steps := neverEndCycleAgent;
      match step(st)
      case Done(c) =>
        color := Some(c);
        break;
      case Reflect(next) =>
        st := next;
    }
  }

  /** The position of pixel (row iCanvas, column j) in the row-major buffer. */
  function PixelIndex(iCanvas: int, j: int, scrw: int): int
  {
    iCanvas * scrw + j
  }

  /** A positive multiple of a positive width is at least that width. */
  lemma MulAtLeast(a: int, w: int)
    requires a >= 1 && w > 0
    ensures a * w >= w
  {
  }

  /** Every pixel position lies inside the buffer and gives back its row and column. */
  lemma PixelIndexInBounds(iCanvas: int, j: int, scrw: int, scrh: int)
    requires 0 <= iCanvas < scrh && 0 <= j < scrw
    ensures 0 <= PixelIndex(iCanvas, j, scrw) < scrw * scrh
    ensures PixelIndex(iCanvas, j, scrw) / scrw == iCanvas
    ensures PixelIndex(iCanvas, j, scrw) % scrw == j
  {
    var p := PixelIndex(iCanvas, j, scrw);
    MulAtLeast(scrh - iCanvas, scrw);
    assert (scrh - iCanvas) * scrw == scrh * scrw - iCanvas * scrw;
    var d, m := p / scrw, p % scrw;
    assert (iCanvas - d) * scrw == m - j;
    if iCanvas > d {
      MulAtLeast(iCanvas - d, scrw);
    } else if iCanvas < d {
      MulAtLeast(d - iCanvas, scrw);
    }
  }

  /** Distinct pixels are written at distinct positions. */
  lemma PixelIndexInjective(i1: int, j1: int, i2: int, j2: int, scrw: int, scrh: int)
    requires 0 <= i1 < scrh && 0 <= j1 < scrw && 0 <= i2 < scrh && 0 <= j2 < scrw
    requires (i1, j1) != (i2, j2)
    ensures PixelIndex(i1, j1, scrw) != PixelIndex(i2, j2, scrw)
  {
    PixelIndexInBounds(i1, j1, scrw, scrh);
    PixelIndexInBounds(i2, j2, scrw, scrh);
  }

  /**
   * What the buffer holds at position p after a frame: the colour the
   * pixel's ray settles on within the cap, or the old value if it settles on none.
   */
  function Painted<S>(was: seq<bv32>, start: (int, int) -> S, step: S -> Step<S>, scrw: int, p: int): bv32
    requires scrw > 0 && 0 <= p < |was|
  {
    match Trace(start(p / scrw, p % scrw), step, MaxSteps)
    case Some(color) => color
    case None => was[p]
  }

  /** Whether every position before `upTo` holds its painted value and every later one its old value. */
  ghost predicate PaintedUpTo<S>(pixels: seq<bv32>, was: seq<bv32>, start: (int, int) -> S, step: S -> Step<S>,
                                 scrw: int, upTo: int)
    requires scrw > 0 && |pixels| == |was|
  {
    && (forall p :: 0 <= p < upTo && p < |pixels| ==> pixels[p] == Painted(was, start, step, scrw, p))
    && (forall p :: upTo <= p < |pixels| && 0 <= p ==> pixels[p] == was[p])
  }

  /** The inner loop over the columns of row iCanvas, running the capped trace of each pixel. */
  method RenderRow<S>(pixels: array<bv32>, scrw: int, scrh: int, iCanvas: int,
                      start: (int, int) -> S, step: S -> Step<S>, ghost was: seq<bv32>, ghost rowStart: int)
    requires scrw > 0 && 0 <= iCanvas < scrh && pixels.Length == scrw * scrh && |was| == pixels.Length
    requires rowStart == iCanvas * scrw
    requires PaintedUpTo(pixels[..], was, start, step, scrw, rowStart)
    modifies pixels
    ensures PaintedUpTo(pixels[..], was, start, step, scrw, rowStart + scrw)
  {
    var j := 0;
    while j < scrw
      invariant 0 <= j <= scrw
      invariant PaintedUpTo(pixels[..], was, start, step, scrw, rowStart + j)
    {
      PixelIndexInBounds(iCanvas, j, scrw, scrh);
      var color, _ := TraceRay(start(iCanvas, j), step);
      if color.Some? {
        pixels[iCanvas * scrw + j] := color.value;
      }
      j := j + 1;
    }
  }

  /**
   * The two nested pixel loops: row iCanvas, column j. `start(iCanvas, j)`
   * is the ray through that pixel and `step` one iteration of its do-while;
   * a ray that settles is written at iCanvas * scrw + j.
   */
  method Render<S>(pixels: array<bv32>, scrw: int, scrh: int, start: (int, int) -> S, step: S -> Step<S>)
    requires scrw > 0 && scrh > 0 && pixels.Length == scrw * scrh
    modifies pixels
    ensures forall p :: 0 <= p < pixels.Length ==> pixels[p] == Painted(old(pixels[..]), start, step, scrw, p)
  {
    ghost var was := pixels[..];
    var iCanvas := 0;
    ghost var rowStart := 0;
    while iCanvas < scrh
      invariant 0 <= iCanvas <= scrh && rowStart == iCanvas * scrw
      invariant PaintedUpTo(pixels[..], was, start, step, scrw, rowStart)
    {
      RenderRow(pixels, scrw, scrh, iCanvas, start, step, was, rowStart);
      iCanvas := iCanvas + 1;
      rowStart := rowStart + scrw;
    }
  }
}
