/**
 * The loading sequence shown before the page: a canvas of particles driven through a
 * fixed timeline of phases (scan line, waking grid, vortex, silhouette, monogram,
 * charge, explosion), each lasting a fixed number of milliseconds.
 *
 * Randomness, trigonometry and the pixels of the rendered monogram are inputs of the
 * model; drawing on the canvas is left out.
 */
module LoadingRitual {
  import opened Common

  // ---------------------------------------------------------------------------
  // The timeline
  // ---------------------------------------------------------------------------

  datatype Phase = Scan | GridWake | Vortex | Silhouette | Monogram | Charge | Explode | Done

  /** Milliseconds each phase lasts (`CONFIG.timings`; the vortex's 800 is written
      into the frame loop itself). */
  const ScanMs: int := 1500
  const GridWakeMs: int := 1000
  const VortexMs: int := 800
  const SilhouetteMs: int := 1200
  const MonogramMs: int := 1200
  const ChargeMs: int := 1800
  const ExplodeMs: int := 800

  /** A phase's targets are handed out on frames less than this many ms into it. */
  const AimWindowMs: int := 20

  /** Position of a phase on the timeline. */
  function Rank(p: Phase): nat
  {
    match p
    case Scan => 0
    case GridWake => 1
    case Vortex => 2
    case Silhouette => 3
    case Monogram => 4
    case Charge => 5
    case Explode => 6
    case Done => 7
  }

  /** The phase a transition leads to. */
  function Next(p: Phase): (q: Phase)
    requires p != Done
    ensures Rank(q) == Rank(p) + 1
  {
    match p
    case Scan => GridWake
    case GridWake => Vortex
    case Vortex => Silhouette
    case Silhouette => Monogram
    case Monogram => Charge
    case Charge => Explode
    case Explode => Done
  }

  function Duration(p: Phase): (ms: int)
    requires p != Done
    ensures ms > 0
  {
    match p
    case Scan => ScanMs
    case GridWake => GridWakeMs
    case Vortex => VortexMs
    case Silhouette => SilhouetteMs
    case Monogram => MonogramMs
    case Charge => ChargeMs
    case Explode => ExplodeMs
  }

  /** The phase after one frame's switch, `elapsed` ms into phase `p`: a phase hands
      over to the next exactly when more than its duration has elapsed. */
  function Step(p: Phase, elapsed: int): (q: Phase)
    ensures p == Done ==> q == Done
    ensures p != Done ==> (q == Next(p) <==> elapsed > Duration(p))
    ensures p != Done ==> (q == p <==> elapsed <= Duration(p))
    ensures Rank(p) <= Rank(q) <= Rank(p) + 1
  {
    if p == Done then Done
    else if elapsed > Duration(p) then Next(p)
    else p
  }

  /** The phase and the time it was entered. */
  datatype Clock = Clock(phase: Phase, start: int)

  /** One frame at time `t`: the switch, with `transition` restarting the clock. */
  function Tick(c: Clock, t: int): Clock
  {
    var q := Step(c.phase, t - c.start);
    if q != c.phase then Clock(q, t) else c
  }

  /** A run of frames at the given times. */
  function Run(c: Clock, ts: seq<int>): Clock
    decreases |ts|
  {
    if ts == [] then c else Run(Tick(c, ts[0]), ts[1..])
  }

  /** The least total of the phase durations from `p` up to, not including, `q`. */
  function TimeBetween(p: Phase, q: Phase): int
    requires Rank(p) <= Rank(q)
    decreases Rank(q) - Rank(p)
  {
    if p == q then 0 else Duration(p) + TimeBetween(Next(p), q)
  }

  /** Whatever the frame times, phases are only ever entered in timeline order, at
      most one per frame, and each phase passed has lasted longer than its duration. */
  lemma {:induction false} RunInOrder(c: Clock, ts: seq<int>)
    ensures Rank(c.phase) <= Rank(Run(c, ts).phase) <= Rank(c.phase) + |ts|
    ensures Run(c, ts).start - c.start
            >= TimeBetween(c.phase, Run(c, ts).phase) + (Rank(Run(c, ts).phase) - Rank(c.phase))
    decreases |ts|
  {
    if ts != [] {
      var c' := Tick(c, ts[0]);
      RunInOrder(c', ts[1..]);
      var end := Run(c', ts[1..]);
      assert end == Run(c, ts);
      if c'.phase != c.phase {
        assert c'.phase == Next(c.phase);
        assert c'.start - c.start > Duration(c.phase);
        assert TimeBetween(c.phase, end.phase) == Duration(c.phase) + TimeBetween(c'.phase, end.phase);
      }
    }
  }

  /** The whole sequence, from the start of the scan to the end, cannot take 8300 ms
      or less. */
  lemma WholeSequenceTakesItsTime(start: int, ts: seq<int>)
    requires Run(Clock(Scan, start), ts).phase == Done
    ensures Run(Clock(Scan, start), ts).start - start > 8300
    ensures |ts| >= 7
  {
    RunInOrder(Clock(Scan, start), ts);
    assert TimeBetween(Scan, Done) == 8300;
  }

  // ---------------------------------------------------------------------------
  // Particles
  // ---------------------------------------------------------------------------

  const Friction: real := 0.94
  const Symbols: seq<string> := ["+", "\U{00B7}", "x", "-", "::", "\U{25A0}"]

  /** The fields of a particle; `kind` is the source's `type` (0 dim, 1 bright). */
  datatype ParticleState = ParticleState(
    x: real, y: real, targetX: real, targetY: real, vx: real, vy: real,
    size: real, kind: int, alpha: real, symbol: string, ease: real, wobble: real)

  /** The random draws for one new particle: its position (uniform over the window),
      its wobble phase, and the symbol index `Math.floor(Math.random() * 6)`. */
  datatype ParticleDraw = ParticleDraw(at: Point, wobble: real, symbol: nat)

  /** The per-frame motion inputs of one particle, each the value of a random or
      trigonometric expression of the source:
      jitter  — the two `(Math.random() - 0.5) * 0.5` of the waking grid;
      swirl   — `cos(angle - 1.5) * 0.5 - cos(angle) * 0.8` and its sine twin in the vortex;
      wave    — `sin(wobble) * 0.3`, `cos(wobble) * 0.3` of the morphs (after the wobble step);
      spark   — the `(Math.random() - 0.5) * 10` kick taken on 2% of charge frames;
      heading — `cos(angle)`, `sin(angle)` away from the centre in the explosion. */
  datatype Motion = Motion(jitter: Point, swirl: Point, wave: Point, spark: Option<Point>, heading: Point)

  /** A particle as its constructor leaves it. */
  function NewParticle(d: ParticleDraw): (s: ParticleState)
    ensures s.x == s.targetX == d.at.x && s.y == s.targetY == d.at.y
    ensures s.kind == 0 && s.alpha == 0.0 && s.symbol == ""
  {
    ParticleState(d.at.x, d.at.y, d.at.x, d.at.y, 0.0, 0.0, 1.0, 0, 0.0, "", 0.1, d.wobble)
  }

  /** `Particle.update` for one frame in phase `p` around centre `c`. */
  function Updated(s: ParticleState, p: Phase, c: Point, m: Motion): ParticleState
  {
    match p
    case Scan => s.(alpha := 0.0)
    case GridWake =>
      s.(x := s.x + m.jitter.x, y := s.y + m.jitter.y,
         alpha := if s.alpha < 1.0 then s.alpha + 0.05 else s.alpha,
         kind := 0, size := 1.5)
    case Vortex =>
      var vx := (s.vx + m.swirl.x) * Friction;
      var vy := (s.vy + m.swirl.y) * Friction;
      s.(targetX := c.x, targetY := c.y, vx := vx, vy := vy, x := s.x + vx, y := s.y + vy, alpha := 1.0)
    case Silhouette | Monogram =>
      s.(x := s.x + (s.targetX - s.x) * s.ease + m.wave.x, y := s.y + (s.targetY - s.y) * s.ease + m.wave.y,
         wobble := s.wobble + 0.05, kind := 1, size := if p == Monogram then 1.8 else 1.2)
    case Charge =>
      var kick := if m.spark.Some? then m.spark.value else Point(0.0, 0.0);
      s.(x := s.x + (s.targetX - s.x) * 0.2 + kick.x, y := s.y + (s.targetY - s.y) * 0.2 + kick.y)
    case Explode =>
      var vx := m.heading.x * 20.0;
      var vy := m.heading.y * 20.0;
      s.(vx := vx, vy := vy, x := s.x + vx, y := s.y + vy, alpha := s.alpha - 0.05)
    case Done => s
  }

  /** What each phase does to a particle's visibility, look and targets: the scan hides
      it, the waking grid fades it in by 0.05 a frame up to full, the vortex shows it
      and pulls its target to the centre, the morphs make it bright and larger, the
      explosion fades it out; only the vortex moves targets, and nothing changes the
      symbol or the easing. */
  lemma UpdateByPhase(s: ParticleState, p: Phase, c: Point, m: Motion, r: ParticleState)
    requires r == Updated(s, p, c, m)
    ensures p == Scan ==> r == s.(alpha := 0.0)
    ensures p == GridWake ==> r.kind == 0 && r.size == 1.5
                              && r.alpha == (if s.alpha < 1.0 then s.alpha + 0.05 else s.alpha)
    ensures p == Vortex ==> r.alpha == 1.0 && r.targetX == c.x && r.targetY == c.y
    ensures p == Silhouette || p == Monogram ==> r.kind == 1 && r.size == (if p == Monogram then 1.8 else 1.2)
    ensures p == Explode ==> r.alpha == s.alpha - 0.05
    ensures p == Done ==> r == s
    ensures p != Vortex ==> r.targetX == s.targetX && r.targetY == s.targetY
    ensures r.symbol == s.symbol && r.ease == s.ease
    ensures p !in {GridWake, Silhouette, Monogram} ==> r.kind == s.kind && r.size == s.size
  {
  }

  /** A particle is always dim (0) or bright (1). */
  lemma KindStaysBinary(s: ParticleState, p: Phase, c: Point, m: Motion)
    requires s.kind == 0 || s.kind == 1
    ensures Updated(s, p, c, m).kind == 0 || Updated(s, p, c, m).kind == 1
  {
  }

  /** Frames of one phase in a row, one motion input per frame. */
  function Frames(s: ParticleState, p: Phase, c: Point, ms: seq<Motion>): ParticleState
    decreases |ms|
  {
    if ms == [] then s else Frames(Updated(s, p, c, ms[0]), p, c, ms[1..])
  }

  /** During the explosion a particle fades by 0.05 a frame, so one that starts fully
      visible is gone after twenty frames. */
  lemma {:induction false} ExplosionFades(s: ParticleState, c: Point, ms: seq<Motion>)
    ensures Frames(s, Explode, c, ms).alpha == s.alpha - 0.05 * |ms| as real
    ensures s.alpha <= 1.0 && |ms| >= 20 ==> Frames(s, Explode, c, ms).alpha <= 0.0
    decreases |ms|
  {
    if ms != [] {
      ExplosionFades(Updated(s, Explode, c, ms[0]), c, ms[1..]);
    }
  }

  /** While the grid wakes, a particle's alpha climbs by 0.05 a frame and never passes
      1.05. */
  lemma {:induction false} GridWakeAlphaBounded(s: ParticleState, c: Point, ms: seq<Motion>)
    requires 0.0 <= s.alpha <= 1.05
    ensures s.alpha <= Frames(s, GridWake, c, ms).alpha <= 1.05
    decreases |ms|
  {
    if ms != [] {
      GridWakeAlphaBounded(Updated(s, GridWake, c, ms[0]), c, ms[1..]);
    }
  }

  /** Whether a frame draws the particle after updating it: during the waking grid as
      its symbol, once faintly visible; in every later phase as a dim or bright square,
      once its alpha exceeds 0.1. */
  predicate Drawn(s: ParticleState, p: Phase)
  {
    if p == GridWake then s.alpha > 0.01 && s.symbol != "" else s.alpha > 0.1
  }

  /** No frame changes a particle's symbol. */
  lemma {:induction false} FramesKeepSymbol(s: ParticleState, p: Phase, c: Point, ms: seq<Motion>)
    ensures Frames(s, p, c, ms).symbol == s.symbol
    decreases |ms|
  {
    if ms != [] {
      FramesKeepSymbol(Updated(s, p, c, ms[0]), p, c, ms[1..]);
    }
  }

  /** Only the grid particles show during the waking grid: the randomly placed ones
      have no symbol, whatever the frames do to them. */
  lemma ScatteredHiddenInGridWake(d: ParticleDraw, c: Point, ms: seq<Motion>)
    ensures !Drawn(Frames(NewParticle(d), GridWake, c, ms), GridWake)
  {
    FramesKeepSymbol(NewParticle(d), GridWake, c, ms);
  }

  /** Eighteen frames into the explosion, a particle that was at most fully visible is
      no longer drawn. */
  lemma ExplosionHides(s: ParticleState, c: Point, ms: seq<Motion>)
    requires s.alpha <= 1.0 && |ms| >= 18
    ensures !Drawn(Frames(s, Explode, c, ms), Explode)
  {
    ExplosionFades(s, c, ms);
  }

  /** A particle of the canvas (`class Particle`). */
  class Particle {
    var x: real
    var y: real
    var targetX: real
    var targetY: real
    var vx: real
    var vy: real
    var size: real
    var kind: int
    var alpha: real
    var symbol: string
    var ease: real
    var wobble: real

    function Snap(): ParticleState
      reads this
    {
      ParticleState(x, y, targetX, targetY, vx, vy, size, kind, alpha, symbol, ease, wobble)
    }

    constructor (d: ParticleDraw)
      ensures Snap() == NewParticle(d)
    {
      x, y := d.at.x, d.at.y;
      targetX, targetY := x, y;
      vx, vy := 0.0, 0.0;
      size := 1.0;
      kind := 0;
      alpha := 0.0;
      symbol := "";
      ease := 0.1;
      wobble := d.wobble;
    }

    /** `update(state, centerX, centerY)`: the branch of the phase, one method each. */
    method Update(p: Phase, c: Point, m: Motion)
      modifies this
      ensures Snap() == Updated(old(Snap()), p, c, m)
    {
      if p == Scan {
        alpha := 0.0;
      } else if p == GridWake {
        Wake(m);
      } else if p == Vortex {
        Swirl(c, m);
      } else if p == Silhouette || p == Monogram {
        Morph(p, m);
      } else if p == Charge {
        Gather(m);
      } else if p == Explode {
        Burst(m);
      }
    }

    /** The waking grid: a small jitter, fade in by 0.05 up to full, dim and mid-sized. */
    method Wake(m: Motion)
      modifies this
      ensures Snap() == Updated(old(Snap()), GridWake, Point(0.0, 0.0), m)
    {
      x := x + m.jitter.x;
      y := y + m.jitter.y;
      if alpha < 1.0 {
        alpha := alpha + 0.05;
      }
      kind := 0;
      size := 1.5;
    }

    /** The vortex: the target becomes the centre and the particle swirls with
        friction, fully visible. */
    method Swirl(c: Point, m: Motion)
      modifies this
      ensures Snap() == Updated(old(Snap()), Vortex, c, m)
    {
      targetX, targetY := c.x, c.y;
      vx := (vx + m.swirl.x) * Friction;
      vy := (vy + m.swirl.y) * Friction;
      x := x + vx;
      y := y + vy;
      alpha := 1.0;
    }

    /** The silhouette and the monogram: ease towards the target with a wobble, bright,
        larger for the monogram. */
    method Morph(p: Phase, m: Motion)
      requires p == Silhouette || p == Monogram
      modifies this
      ensures Snap() == Updated(old(Snap()), p, Point(0.0, 0.0), m)
    {
      var dx := targetX - x;
      var dy := targetY - y;
      x := x + dx * ease;
      y := y + dy * ease;
      wobble := wobble + 0.05;
      x := x + m.wave.x;
      y := y + m.wave.y;
      kind := 1;
      size := if p == Monogram then 1.8 else 1.2;
    }

    /** The charge: a fifth of the way to the target, with the occasional spark. */
    method Gather(m: Motion)
      modifies this
      ensures Snap() == Updated(old(Snap()), Charge, Point(0.0, 0.0), m)
    {
      var dx := targetX - x;
      var dy := targetY - y;
      x := x + dx * 0.2;
      y := y + dy * 0.2;
      if m.spark.Some? {
        x := x + m.spark.value.x;
        y := y + m.spark.value.y;
      }
    }

    /** The explosion: flung away from the centre at speed 20, fading by 0.05. */
    method Burst(m: Motion)
      modifies this
      ensures Snap() == Updated(old(Snap()), Explode, Point(0.0, 0.0), m)
    {
      vx := m.heading.x * 20.0;
      vy := m.heading.y * 20.0;
      x := x + vx;
      y := y + vy;
      alpha := alpha - 0.05;
    }
  }

  // ---------------------------------------------------------------------------
  // The particle pool and the target arrays
  // ---------------------------------------------------------------------------

  const GridSpacing: nat := 40
  const ParticleCount: nat := 2200

  function Min(a: int, b: int): int { if a < b then a else b }
  function Max(a: int, b: int): int { if a < b then b else a }

  function GridColumns(width: nat): nat { width / GridSpacing }
  function GridRows(height: nat): nat { height / GridSpacing }

  /** How many particles sit on grid points. */
  function GridCount(width: nat, height: nat): (n: nat)
    ensures n <= ParticleCount
    ensures n > 0 ==> GridColumns(width) > 0
  {
    Min(GridRows(height) * GridColumns(width), ParticleCount)
  }

  /** The `k`-th grid particle, row-major: column `k % cols`, row `k / cols`, at the
      centre of its 40-pixel cell, with the symbol drawn for it. */
  function GridParticle(k: nat, cols: nat, d: ParticleDraw): ParticleState
    requires cols > 0 && d.symbol < |Symbols|
  {
    var px := ((k % cols) * GridSpacing + GridSpacing / 2) as real;
    var py := ((k / cols) * GridSpacing + GridSpacing / 2) as real;
    NewParticle(d).(x := px, y := py, targetX := px, targetY := py, symbol := Symbols[d.symbol])
  }

  /** The `k`-th particle `initParticles` makes for a `width` by `height` window: a
      grid particle while grid cells remain, a randomly placed one after them. */
  function InitialParticle(k: nat, width: nat, height: nat, d: ParticleDraw): ParticleState
    requires d.symbol < |Symbols|
  {
    if k < GridCount(width, height) then GridParticle(k, GridColumns(width), d) else NewParticle(d)
  }

  /** No two grid particles share a cell, and each rests on its own position. */
  lemma GridCellsDistinct(j: nat, k: nat, cols: nat, dj: ParticleDraw, dk: ParticleDraw)
    requires cols > 0 && dj.symbol < |Symbols| && dk.symbol < |Symbols| && j != k
    ensures GridParticle(j, cols, dj).x != GridParticle(k, cols, dk).x
            || GridParticle(j, cols, dj).y != GridParticle(k, cols, dk).y
    ensures GridParticle(j, cols, dj).x == GridParticle(j, cols, dj).targetX
    ensures GridParticle(j, cols, dj).y == GridParticle(j, cols, dj).targetY
  {
    if j % cols == k % cols && j / cols == k / cols {
      assert false;
    }
  }

  /** Row-major position `r * cols + c` is column `c` of row `r`. */
  lemma RowMajor(r: nat, c: nat, cols: nat)
    requires c < cols
    ensures (r * cols + c) % cols == c && (r * cols + c) / cols == r
  {
    var k := r * cols + c;
    var q, m := k / cols, k % cols;
    assert k == q * cols + m;
    assert (r - q) * cols == m - c;
    if r - q >= 1 {
      assert false;
    } else if r - q <= -1 {
      assert false;
    }
  }

  /** The random draws of one silhouette target: a point of the head disc (an angle
      and a radius already turned into an offset), or two uniform values in [0, 1)
      for the body. */
  datatype SilhouetteDraw = HeadDraw(offset: Point) | BodyDraw(spread: real, lift: real)

  /** Side of the square the silhouette is drawn in: a quarter of the shorter side. */
  function SilhouetteScale(width: nat, height: nat): (s: real)
    ensures s >= 0.0
  {
    Min(width, height) as real * 0.25
  }

  /** One silhouette target for a window of the given size. */
  function SilhouettePoint(width: nat, height: nat, d: SilhouetteDraw): Point
  {
    var cx := width as real / 2.0;
    var cy := height as real / 2.0;
    var scale := SilhouetteScale(width, height);
    match d
    case HeadDraw(offset) => Point(cx + offset.x, cy - (scale * 0.5) + offset.y)
    case BodyDraw(spread, lift) =>
      var tx := cx + (spread - 0.5) * scale * 2.5;
      var ty := cy + (scale * 0.4) + (lift * scale * 0.6);
      Point(if Abs(tx - cx) > scale * 1.2 then cx else tx, ty)
  }


  /** Head targets are the drawn offset from a point half a scale above the centre;
      body targets lie within 1.2 scales of the vertical axis, and between 0.4 and 1
      scale below the centre. */
  lemma SilhouetteShape(width: nat, height: nat, d: SilhouetteDraw, t: Point)
    requires t == SilhouettePoint(width, height, d)
    ensures d.HeadDraw? ==>
              t == Point(width as real / 2.0 + d.offset.x,
                         height as real / 2.0 - 0.5 * SilhouetteScale(width, height) + d.offset.y)
    ensures d.BodyDraw? ==> Abs(t.x - width as real / 2.0) <= 1.2 * SilhouetteScale(width, height)
    ensures d.BodyDraw? && 0.0 <= d.lift < 1.0 ==>
              height as real / 2.0 + 0.4 * SilhouetteScale(width, height) <= t.y
              <= height as real / 2.0 + SilhouetteScale(width, height)
  {
    if d.BodyDraw? && 0.0 <= d.lift < 1.0 {
      assert d.lift * SilhouetteScale(width, height) <= SilhouetteScale(width, height) by {
        assert (1.0 - d.lift) * SilhouetteScale(width, height) >= 0.0;
      }
    }
  }

  /** The monogram is rendered on a canvas no larger than 2000 pixels a side, and
      sampled every 6 pixels in each direction. */
  const MaxCanvas: nat := 2000
  const SampleStep: nat := 6

  function Capped(n: nat): (c: nat)
    ensures c <= n && c <= MaxCanvas && (c == 0 <==> n == 0)
  {
    Min(n, MaxCanvas)
  }

  /** Sample points along one side of `n` pixels: 0, 6, ... below `n`. */
  function Samples(n: nat): nat
  {
    (n + SampleStep - 1) / SampleStep
  }

  datatype Sample = Sample(x: nat, y: nat)

  /** The red channel of the pixel at (x, y) of a `w`-wide RGBA buffer is above 128. A
      read past the end of the buffer gives `undefined`, which is not above 128 (see
      `FullBufferLit` for the buffer of the whole canvas). */
  predicate Lit(data: seq<int>, w: nat, x: nat, y: nat)
  {
    var i := (y * w + x) * 4;
    i < |data| && data[i] > 128
  }

  /** The lit samples among the first `n` sample columns of row `y`, left to right. */
  function RowHits(data: seq<int>, w: nat, y: nat, n: nat): seq<Sample>
  {
    if n == 0 then []
    else RowHits(data, w, y, n - 1)
         + (if Lit(data, w, SampleStep * (n - 1), y) then [Sample(SampleStep * (n - 1), y)] else [])
  }

  /** The lit samples of the first `m` sample rows, row by row. */
  function Hits(data: seq<int>, w: nat, m: nat): seq<Sample>
  {
    if m == 0 then []
    else Hits(data, w, m - 1) + RowHits(data, w, SampleStep * (m - 1), Samples(w))
  }

  lemma {:induction false} RowHitsMembership(data: seq<int>, w: nat, y: nat, n: nat, s: Sample)
    ensures s in RowHits(data, w, y, n) <==>
              s.y == y && s.x % SampleStep == 0 && s.x < SampleStep * n && Lit(data, w, s.x, s.y)
  {
    if n > 0 {
      RowHitsMembership(data, w, y, n - 1, s);
    }
  }

  lemma {:induction false} HitsMembership(data: seq<int>, w: nat, m: nat, s: Sample)
    ensures s in Hits(data, w, m) <==>
              s.y % SampleStep == 0 && s.y < SampleStep * m
              && s.x % SampleStep == 0 && s.x < w && Lit(data, w, s.x, s.y)
  {
    if m > 0 {
      HitsMembership(data, w, m - 1, s);
      RowHitsMembership(data, w, SampleStep * (m - 1), Samples(w), s);
    }
  }

  /** The monogram's valid pixels are exactly the samples (both coordinates multiples
      of 6, inside the capped canvas) whose red channel is above 128. */
  lemma MonogramSamples(data: seq<int>, w: nat, h: nat, s: Sample)
    ensures s in Hits(data, w, Samples(h)) <==>
              s.x % SampleStep == 0 && s.y % SampleStep == 0 && s.x < w && s.y < h
              && Lit(data, w, s.x, s.y)
  {
    HitsMembership(data, w, Samples(h), s);
  }

  /** The factor from the capped canvas back to the window. Sampling only happens on
      a canvas with both sides positive: on an empty one reading the pixels throws
      first (see `GenerateMonogramTargets`). */
  function Ratio(full: nat, capped: nat): real
    requires capped > 0
  {
    full as real / capped as real
  }

  function ScaleSample(s: Sample, width: nat, height: nat): Point
    requires width > 0 && height > 0
  {
    Point(s.x as real * Ratio(width, Capped(width)), s.y as real * Ratio(height, Capped(height)))
  }

  /** The window's centre. */
  function Centre(width: nat, height: nat): Point
  {
    Point(width as real / 2.0, height as real / 2.0)
  }

  /** The monogram targets for the valid pixels `px`: the pixels handed out in turn,
      wrapping round, or the centre when there are none. */
  function MonogramTarget(px: seq<Point>, i: nat, width: nat, height: nat): Point
  {
    if |px| > 0 then px[i % |px|] else Centre(width, height)
  }

  /** A particle's targets after the `switch` of a frame `elapsed` ms into phase
      `before`: the silhouette and the monogram hand theirs out on the first frames of
      their phase (with no monogram targets that frame throws instead, see
      `FrameOutcome`). */
  function Aimed(s: ParticleState, i: nat, before: Phase, elapsed: int,
                 silhouette: seq<Point>, monogram: seq<Point>, pick: nat): (r: ParticleState)
    requires i < |silhouette|
    ensures r.x == s.x && r.y == s.y && r.alpha == s.alpha && r.kind == s.kind
  {
    if before == Silhouette && elapsed < AimWindowMs then
      s.(targetX := silhouette[i].x, targetY := silhouette[i].y)
    else if before == Monogram && elapsed < AimWindowMs && monogram != [] then
      var t := monogram[(i + pick) % |monogram|];
      s.(targetX := t.x, targetY := t.y, ease := 0.05)
    else s
  }

  /** The loop's update of a particle in phase `p`: none in the scan. */
  function Moved(s: ParticleState, p: Phase, c: Point, m: Motion): ParticleState
  {
    if p == Scan then s else Updated(s, p, c, m)
  }

  /** `targets` are the monogram targets a `width` by `height` window gets from the
      canvas buffer `data`: the lit samples, scaled back, handed out in turn. */
  ghost predicate SampledMonogram(targets: seq<Point>, data: seq<int>, width: nat, height: nat)
    requires width > 0 && height > 0
  {
    |targets| == ParticleCount
    && forall i :: 0 <= i < ParticleCount ==>
         targets[i] == MonogramTarget(Scaled(Hits(data, Capped(width), Samples(Capped(height))), width, height),
                                      i, width, height)
  }

  /** The scaled points of a list of samples. */
  function Scaled(ss: seq<Sample>, width: nat, height: nat): (px: seq<Point>)
    requires width > 0 && height > 0
    ensures |px| == |ss|
  {
    seq(|ss|, k requires 0 <= k < |ss| => ScaleSample(ss[k], width, height))
  }

  /** The inner loop of `generateMonogramTargets`: the lit samples of row `y` of the
      capped `w` by `h` canvas, scaled back to the window. */
  method SampleRow(data: seq<int>, w: nat, h: nat, y: nat, width: nat, height: nat)
    returns (pixels: seq<Point>)
    requires width > 0 && height > 0
    requires w == Capped(width) && h == Capped(height) && y < h
    ensures pixels == Scaled(RowHits(data, w, y, Samples(w)), width, height)
  {
    pixels := [];
    var x := 0;
    ghost var col: nat := 0;
    while x < w
      invariant x == SampleStep * col && col <= Samples(w)
      invariant pixels == Scaled(RowHits(data, w, y, col), width, height)
    {
      var index := (y * w + x) * 4;
      SamplesCount(w, col);
      ghost var before := RowHits(data, w, y, col);
      if index < |data| && data[index] > 128 {
        assert RowHits(data, w, y, col + 1) == before + [Sample(x, y)];
        ScaledSnoc(before, Sample(x, y), width, height);
        ScaleSampleAt(x, y, width, height, w, h);
        pixels := pixels + [Point(x as real * (width as real / w as real), y as real * (height as real / h as real))];
      } else {
        assert RowHits(data, w, y, col + 1) == before;
      }
      x := x + SampleStep;
      col := col + 1;
    }
    SamplesCount(w, col);
  }

  /** Counting the samples along a side of `n` pixels. */
  lemma SamplesCount(n: nat, col: nat)
    ensures SampleStep * col < n ==> col < Samples(n)
    ensures SampleStep * col >= n && col <= Samples(n) ==> col == Samples(n)
  {
  }

  /** The last loop of `generateMonogramTargets`: target `i` is valid pixel
      `i % |validPixels|`, or the centre when no pixel is valid. */
  method HandOut(validPixels: seq<Point>, width: nat, height: nat) returns (targets: seq<Point>)
    ensures |targets| == ParticleCount
    ensures forall i :: 0 <= i < ParticleCount ==> targets[i] == MonogramTarget(validPixels, i, width, height)
  {
    targets := [];
    var i := 0;
    while i < ParticleCount
      invariant 0 <= i <= ParticleCount && |targets| == i
      invariant forall k :: 0 <= k < i ==> targets[k] == MonogramTarget(validPixels, k, width, height)
    {
      if |validPixels| > 0 {
        targets := targets + [validPixels[i % |validPixels|]];
      } else {
        targets := targets + [Point(width as real / 2.0, height as real / 2.0)];
      }
      i := i + 1;
    }
  }

  lemma ScaleSampleAt(x: nat, y: nat, width: nat, height: nat, w: nat, h: nat)
    requires w == Capped(width) && h == Capped(height) && w > 0 && h > 0
    ensures ScaleSample(Sample(x, y), width, height)
            == Point(x as real * (width as real / w as real), y as real * (height as real / h as real))
  {
  }

  lemma ScaledSnoc(ss: seq<Sample>, s: Sample, width: nat, height: nat)
    requires width > 0 && height > 0
    ensures Scaled(ss + [s], width, height) == Scaled(ss, width, height) + [ScaleSample(s, width, height)]
  {
  }

  /** The outer loop of `generateMonogramTargets`: all lit samples, row by row. */
  method SampleMonogram(data: seq<int>, width: nat, height: nat) returns (pixels: seq<Point>)
    requires width > 0 && height > 0
    ensures pixels == Scaled(Hits(data, Capped(width), Samples(Capped(height))), width, height)
  {
    var w := Capped(width);
    var h := Capped(height);
    pixels := [];
    var y := 0;
    ghost var row: nat := 0;
    while y < h
      invariant y == SampleStep * row && row <= Samples(h)
      invariant pixels == Scaled(Hits(data, w, row), width, height)
    {
      var rowPixels := SampleRow(data, w, h, y, width, height);
      ScaledAppend(Hits(data, w, row), RowHits(data, w, y, Samples(w)), width, height);
      pixels := pixels + rowPixels;
      y := y + SampleStep;
      row := row + 1;
    }
  }

  lemma ScaledAppend(a: seq<Sample>, b: seq<Sample>, width: nat, height: nat)
    requires width > 0 && height > 0
    ensures Scaled(a + b, width, height) == Scaled(a, width, height) + Scaled(b, width, height)
  {
  }

  /** The body of the grid loops of `initParticles`: a new particle moved to the centre
      of cell (`c`, `r`), resting there, with its symbol drawn. */
  method NewGridParticle(r: nat, c: nat, cols: nat, d: ParticleDraw) returns (p: Particle)
    requires c < cols && d.symbol < |Symbols|
    ensures fresh(p)
    ensures p.Snap() == GridParticle(r * cols + c, cols, d)
  {
    RowMajor(r, c, cols);
    p := new Particle(d);
    p.x := (c * GridSpacing + GridSpacing / 2) as real;
    p.y := (r * GridSpacing + GridSpacing / 2) as real;
    p.targetX := p.x;
    p.targetY := p.y;
    p.symbol := Symbols[d.symbol];
  }

  /** The grid loops of `initParticles`: one particle per 40-pixel cell, row by row,
      stopping at 2200. */
  method MakeGrid(cols: nat, rows: nat, draws: seq<ParticleDraw>) returns (ps: seq<Particle>)
    requires |draws| >= ParticleCount
    requires forall k :: 0 <= k < |draws| ==> draws[k].symbol < |Symbols|
    ensures |ps| == Min(rows * cols, ParticleCount)
    ensures forall k :: 0 <= k < |ps| ==> fresh(ps[k])
    ensures forall i, j :: 0 <= i < j < |ps| ==> ps[i] != ps[j]
    ensures forall k :: 0 <= k < |ps| ==> cols > 0 && ps[k].Snap() == GridParticle(k, cols, draws[k])
  {
    ps := [];
    var count := 0;
    var r := 0;
    while r < rows
      invariant 0 <= r <= rows
      invariant count == Min(r * cols, ParticleCount) && |ps| == count
      invariant forall k :: 0 <= k < count ==> fresh(ps[k])
      invariant forall i, j :: 0 <= i < j < count ==> ps[i] != ps[j]
      invariant forall k :: 0 <= k < count ==> cols > 0 && ps[k].Snap() == GridParticle(k, cols, draws[k])
    {
      var c := 0;
      while c < cols
        invariant 0 <= c <= cols
        invariant count == Min(r * cols + c, ParticleCount) && |ps| == count
        invariant forall k :: 0 <= k < count ==> fresh(ps[k])
        invariant forall i, j :: 0 <= i < j < count ==> ps[i] != ps[j]
        invariant forall k :: 0 <= k < count ==> cols > 0 && ps[k].Snap() == GridParticle(k, cols, draws[k])
      {
        if count >= ParticleCount {
          break;
        }
        var p := NewGridParticle(r, c, cols, draws[count]);
        ps := ps + [p];
        count := count + 1;
        c := c + 1;
      }
      assert count == Min((r + 1) * cols, ParticleCount);
      r := r + 1;
    }
  }

  /** The filling loop of `initParticles`: `missing` randomly placed particles, the
      `k`-th made from draw `first + k`. */
  method MakeScattered(first: nat, missing: nat, draws: seq<ParticleDraw>) returns (ps: seq<Particle>)
    requires first + missing <= |draws|
    ensures |ps| == missing
    ensures forall k :: 0 <= k < |ps| ==> fresh(ps[k])
    ensures forall i, j :: 0 <= i < j < |ps| ==> ps[i] != ps[j]
    ensures forall k :: 0 <= k < |ps| ==> ps[k].Snap() == NewParticle(draws[first + k])
  {
    ps := [];
    while |ps| < missing
      invariant |ps| <= missing
      invariant forall k :: 0 <= k < |ps| ==> fresh(ps[k])
      invariant forall i, j :: 0 <= i < j < |ps| ==> ps[i] != ps[j]
      invariant forall k :: 0 <= k < |ps| ==> ps[k].Snap() == NewParticle(draws[first + k])
    {
      var p := new Particle(draws[first + |ps|]);
      ps := ps + [p];
    }
  }

  /** How a frame of the loop ended. */
  datatype FrameOutcome =
    | Scheduled   // the next frame was requested
    | Finished    // the explosion ended: `finish` ran and no frame was requested
    | Threw       // the monogram phase read a target of an empty list

  /** The `resize` listeners registered on `window`. A listener is a function value,
      and `fn.bind(obj)` makes a new one on every call; functions are told apart by the
      number of the `bind` that made them. */
  class Window {
    var resizeListeners: set<nat>
    var functionsMade: nat

    ghost predicate Valid()
      reads this
    {
      forall f :: f in resizeListeners ==> f < functionsMade
    }

    constructor ()
      ensures Valid() && resizeListeners == {} && functionsMade == 0
    {
      resizeListeners := {};
      functionsMade := 0;
    }

    /** `resize.bind(this)`: a function different from every one made before. */
    method Bind() returns (f: nat)
      requires Valid()
      modifies this
      ensures Valid()
      ensures f == old(functionsMade) && f !in resizeListeners
      ensures functionsMade == f + 1 && resizeListeners == old(resizeListeners)
    {
      f := functionsMade;
      functionsMade := functionsMade + 1;
    }

    /** `addEventListener('resize', f)` (a function already registered is not added
        twice). */
    method AddResizeListener(f: nat)
      requires Valid() && f < functionsMade
      modifies this
      ensures Valid() && functionsMade == old(functionsMade)
      ensures resizeListeners == old(resizeListeners) + {f}
    {
      resizeListeners := resizeListeners + {f};
    }

    /** `removeEventListener('resize', f)`: only that very function is removed. */
    method RemoveResizeListener(f: nat)
      requires Valid()
      modifies this
      ensures Valid() && functionsMade == old(functionsMade)
      ensures resizeListeners == old(resizeListeners) - {f}
    {
      resizeListeners := resizeListeners - {f};
    }
  }

  /** Removing a listener by a function made after it leaves it registered. */
  lemma StaleRemovalKeepsListener(listeners: set<nat>, registered: nat, made: nat)
    requires registered in listeners && registered < made
    ensures registered in listeners - {made}
  {
  }

  /** The controller of the sequence (`class RitualController`). */
  class RitualController {
    var particles: seq<Particle>
    var width: nat
    var height: nat
    var phase: Phase
    var startTime: int
    var stateStartTime: int
    var silhouetteTargets: seq<Point>
    var monogramTargets: seq<Point>
    /** A frame callback is requested and not yet run or cancelled. */
    var framePending: bool
    /** `finish` ran: the overlay fades and `onComplete` follows. */
    var finished: bool
    /** The glow behind the canvas was lit. */
    var glowLit: bool
    /** The bound `resize` registered on the window at start-up; the source does not
        keep it, which is why its `cleanup` cannot remove it. */
    var boundResize: nat

    /** One target per particle for each morph (or no monogram at all), and no particle
        held twice. */
    ghost predicate Valid()
      reads this
    {
      |particles| == ParticleCount
      && |silhouetteTargets| == ParticleCount
      && (|monogramTargets| == ParticleCount || monogramTargets == [])
      && forall i, j :: 0 <= i < j < |particles| ==> particles[i] != particles[j]
    }

    /** `resize` (the canvas's backing store and scale are left out). */
    method Resize(innerWidth: nat, innerHeight: nat)
      modifies this
      ensures width == innerWidth && height == innerHeight
      ensures particles == old(particles) && phase == old(phase) && stateStartTime == old(stateStartTime)
      ensures silhouetteTargets == old(silhouetteTargets) && monogramTargets == old(monogramTargets)
      ensures framePending == old(framePending) && finished == old(finished) && glowLit == old(glowLit)
      ensures boundResize == old(boundResize) && startTime == old(startTime)
    {
      width, height := innerWidth, innerHeight;
    }

    /** `generateSilhouetteTargets`: one target per particle, in draw order. */
    method GenerateSilhouetteTargets(draws: seq<SilhouetteDraw>) returns (targets: seq<Point>)
      requires |draws| == ParticleCount
      ensures |targets| == ParticleCount
      ensures forall i :: 0 <= i < ParticleCount ==> targets[i] == SilhouettePoint(width, height, draws[i])
    {
      targets := [];
      var cx := width as real / 2.0;
      var cy := height as real / 2.0;
      var scale := Min(width, height) as real * 0.25;
      var i := 0;
      while i < ParticleCount
        invariant 0 <= i <= ParticleCount && |targets| == i
        invariant forall k :: 0 <= k < i ==> targets[k] == SilhouettePoint(width, height, draws[k])
      {
        var tx, ty;
        match draws[i] {
          case HeadDraw(offset) =>
            tx := cx + offset.x;
            ty := cy - (scale * 0.5) + offset.y;
          case BodyDraw(spread, lift) =>
            tx := cx + (spread - 0.5) * scale * 2.5;
            ty := cy + (scale * 0.4) + (lift * scale * 0.6);
            if Abs(tx - cx) > scale * 1.2 {
              tx := cx;
            }
        }
        targets := targets + [Point(tx, ty)];
        i := i + 1;
      }
    }

    /** `generateMonogramTargets`. Without a 2D context there are no targets. Otherwise
        the capped canvas gets "AD" drawn on it and its pixels are read back; when a
        side of the window is 0 the canvas is empty and that read throws an
        `IndexSizeError` (reported as `threw`, with no targets). Otherwise `data` is
        the canvas's RGBA buffer, and the lit samples, scaled back to the window, are
        handed out in turn to every particle. */
    method GenerateMonogramTargets(hasContext: bool, data: seq<int>) returns (targets: seq<Point>, threw: bool)
      ensures threw <==> hasContext && (width == 0 || height == 0)
      ensures !hasContext || threw ==> targets == []
      ensures hasContext && !threw ==> |targets| == ParticleCount
      ensures hasContext && width > 0 && height > 0 ==>
                forall i :: 0 <= i < ParticleCount ==>
                  targets[i] == MonogramTarget(Scaled(Hits(data, Capped(width), Samples(Capped(height))), width, height),
                                               i, width, height)
    {
      if !hasContext {
        return [], false;
      }
      var w := Min(width, MaxCanvas);
      var h := Min(height, MaxCanvas);
      if w == 0 || h == 0 {
        // getImageData rejects a zero-sized rectangle.
        return [], true;
      }
      var validPixels := SampleMonogram(data, width, height);
      targets := HandOut(validPixels, width, height);
      threw := false;
    }

    /** `initParticles`: up to 2200 particles on the centres of the 40-pixel grid cells,
        row by row, then randomly placed ones until there are 2200. The `k`-th particle
        made uses `draws[k]`. */
    method InitParticles(draws: seq<ParticleDraw>)
      requires |draws| >= ParticleCount
      requires forall k :: 0 <= k < |draws| ==> draws[k].symbol < |Symbols|
      requires forall i, j :: 0 <= i < j < |particles| ==> particles[i] != particles[j]
      modifies this
      ensures |particles| == Max(|old(particles)| + GridCount(width, height), ParticleCount)
      ensures particles[..|old(particles)|] == old(particles)
      ensures forall i, j :: 0 <= i < j < |particles| ==> particles[i] != particles[j]
      ensures forall k :: |old(particles)| <= k < |particles| ==> fresh(particles[k])
      ensures forall k :: |old(particles)| <= k < |particles| ==>
                particles[k].Snap() == InitialParticle(k - |old(particles)|, width, height, draws[k - |old(particles)|])
      ensures width == old(width) && height == old(height) && phase == old(phase)
      ensures stateStartTime == old(stateStartTime) && startTime == old(startTime)
      ensures silhouetteTargets == old(silhouetteTargets) && monogramTargets == old(monogramTargets)
      ensures framePending == old(framePending) && finished == old(finished) && glowLit == old(glowLit)
      ensures boundResize == old(boundResize)
    {
      var cols := width / GridSpacing;
      var rows := height / GridSpacing;
      var grid := MakeGrid(cols, rows, draws);
      particles := particles + grid;
      var missing := if |particles| < ParticleCount then ParticleCount - |particles| else 0;
      var rest := MakeScattered(|grid|, missing, draws);
      particles := particles + rest;
    }

    /** The silhouette case's `forEach`: particle `i` takes silhouette target `i`. */
    method AimAtSilhouette()
      requires Valid()
      modifies particles
      ensures forall i :: 0 <= i < |particles| ==>
                particles[i].Snap() == old(particles[i].Snap()).(targetX := silhouetteTargets[i].x,
                                                                 targetY := silhouetteTargets[i].y)
    {
      var i := 0;
      while i < |particles|
        invariant 0 <= i <= |particles|
        invariant forall k :: 0 <= k < i ==>
                    particles[k].Snap() == old(particles[k].Snap()).(targetX := silhouetteTargets[k].x,
                                                                     targetY := silhouetteTargets[k].y)
        invariant forall k :: i <= k < |particles| ==> particles[k].Snap() == old(particles[k].Snap())
      {
        var p := particles[i];
        p.targetX := silhouetteTargets[i].x;
        p.targetY := silhouetteTargets[i].y;
        i := i + 1;
      }
    }

    /** The monogram case's `forEach`: particle `i` takes the target `picks[i]` places
        further on, wrapping round, and slows its easing. With no targets at all the
        first lookup yields `undefined` and reading its `x` throws. */
    method AimAtMonogram(picks: seq<nat>) returns (threw: bool)
      requires Valid() && |picks| == |particles|
      modifies particles
      ensures threw <==> monogramTargets == []
      ensures threw ==> forall i :: 0 <= i < |particles| ==> particles[i].Snap() == old(particles[i].Snap())
      ensures !threw ==> forall i :: 0 <= i < |particles| ==>
                particles[i].Snap() == old(particles[i].Snap()).(
                  targetX := monogramTargets[(i + picks[i]) % |monogramTargets|].x,
                  targetY := monogramTargets[(i + picks[i]) % |monogramTargets|].y,
                  ease := 0.05)
    {
      if monogramTargets == [] {
        return true;
      }
      var i := 0;
      while i < |particles|
        invariant 0 <= i <= |particles|
        invariant forall k :: 0 <= k < i ==>
                    particles[k].Snap() == old(particles[k].Snap()).(
                      targetX := monogramTargets[(k + picks[k]) % |monogramTargets|].x,
                      targetY := monogramTargets[(k + picks[k]) % |monogramTargets|].y,
                      ease := 0.05)
        invariant forall k :: i <= k < |particles| ==> particles[k].Snap() == old(particles[k].Snap())
      {
        var t := monogramTargets[(i + picks[i]) % |monogramTargets|];
        var p := particles[i];
        p.targetX := t.x;
        p.targetY := t.y;
        p.ease := 0.05;
        i := i + 1;
      }
      return false;
    }

    /** The loop's `update` of every particle in phase `p`. */
    method UpdateParticles(p: Phase, c: Point, motion: seq<Motion>)
      requires Valid() && |motion| == |particles|
      modifies particles
      ensures forall i :: 0 <= i < |particles| ==>
                particles[i].Snap() == Updated(old(particles[i].Snap()), p, c, motion[i])
    {
      var i := 0;
      while i < |particles|
        invariant 0 <= i <= |particles|
        invariant forall k :: 0 <= k < i ==>
                    particles[k].Snap() == Updated(old(particles[k].Snap()), p, c, motion[k])
        invariant forall k :: i <= k < |particles| ==> particles[k].Snap() == old(particles[k].Snap())
      {
        particles[i].Update(p, c, motion[i]);
        i := i + 1;
      }
    }

    /** The particle updates of `loop`: none in the scan, otherwise every particle is
        updated in the current phase around the window's centre. */
    method MoveParticles(motion: seq<Motion>)
      requires Valid() && |motion| == |particles|
      modifies particles
      ensures forall i :: 0 <= i < |particles| ==>
                particles[i].Snap() == Moved(old(particles[i].Snap()), phase, Centre(width, height), motion[i])
    {
      if phase != Scan {
        UpdateParticles(phase, Point(width as real / 2.0, height as real / 2.0), motion);
      }
    }

    /** `transition`: the new phase starts at `time`; nothing else changes. */
    method Transition(next: Phase, time: int)
      modifies this
      ensures phase == next && stateStartTime == time
      ensures particles == old(particles) && width == old(width) && height == old(height)
      ensures startTime == old(startTime)
      ensures silhouetteTargets == old(silhouetteTargets) && monogramTargets == old(monogramTargets)
      ensures framePending == old(framePending) && finished == old(finished) && glowLit == old(glowLit)
      ensures boundResize == old(boundResize)
    {
      phase := next;
      stateStartTime := time;
    }

    /** The `switch` of `loop(timestamp)`: the phase's own work on its first frames,
        then its transition once its time is up. `picks[i]` is the random offset
        `Math.floor(Math.random() * 100)` drawn for particle `i` on a monogram frame. */
    method SwitchPhase(timestamp: int, picks: seq<nat>) returns (outcome: FrameOutcome)
      requires Valid() && |picks| == |particles|
      modifies this, particles
      ensures particles == old(particles) && width == old(width) && height == old(height)
      ensures silhouetteTargets == old(silhouetteTargets) && monogramTargets == old(monogramTargets)
      ensures startTime == old(startTime) && framePending == old(framePending) && boundResize == old(boundResize)
      ensures outcome == Threw <==>
                old(phase) == Monogram && timestamp - old(stateStartTime) < AimWindowMs && monogramTargets == []
      ensures outcome == Finished <==> old(phase) == Explode && timestamp - old(stateStartTime) > ExplodeMs
      ensures outcome != Threw ==>
                Clock(phase, stateStartTime) == Tick(Clock(old(phase), old(stateStartTime)), timestamp)
      ensures outcome == Threw ==> phase == old(phase) && stateStartTime == old(stateStartTime)
      ensures finished <==> old(finished) || outcome == Finished
      ensures glowLit <==> old(glowLit) || old(phase) == GridWake
      ensures outcome != Scheduled ==>
                forall i :: 0 <= i < |particles| ==> particles[i].Snap() == old(particles[i].Snap())
      ensures forall i :: 0 <= i < |particles| ==>
                particles[i].Snap() == Aimed(old(particles[i].Snap()), i, old(phase),
                                             timestamp - old(stateStartTime), silhouetteTargets,
                                             monogramTargets, picks[i])
    {
      var elapsed := timestamp - stateStartTime;
      outcome := Scheduled;
      match phase {
        case Scan =>
          if elapsed > ScanMs {
            Transition(GridWake, timestamp);
          }
        case GridWake =>
          if elapsed > GridWakeMs {
            Transition(Vortex, timestamp);
          }
          glowLit := true;
        case Vortex =>
          if elapsed > VortexMs {
            Transition(Silhouette, timestamp);
          }
        case Silhouette =>
          if elapsed < AimWindowMs {
            AimAtSilhouette();
          }
          if elapsed > SilhouetteMs {
            Transition(Monogram, timestamp);
          }
        case Monogram =>
          if elapsed < AimWindowMs {
            var threw := AimAtMonogram(picks);
            if threw {
              return Threw;
            }
          }
          if elapsed > MonogramMs {
            Transition(Charge, timestamp);
          }
        case Charge =>
          if elapsed > ChargeMs {
            Transition(Explode, timestamp);
          }
        case Explode =>
          if elapsed > ExplodeMs {
            Transition(Done, timestamp);
            finished := true;
            return Finished;
          }
        case Done =>
      }
    }

    /** `loop(timestamp)`: one animation frame. After the `switch`, every particle is
        updated in the current phase unless it is the scan, and the next frame is
        requested; a finished sequence or a throw requests none. `motion[i]` is the
        motion input of particle `i`. */
    method Loop(timestamp: int, picks: seq<nat>, motion: seq<Motion>) returns (outcome: FrameOutcome)
      requires Valid() && |picks| == |particles| && |motion| == |particles|
      modifies this, particles
      ensures Valid()
      ensures particles == old(particles) && width == old(width) && height == old(height)
      ensures silhouetteTargets == old(silhouetteTargets) && monogramTargets == old(monogramTargets)
      ensures startTime == old(startTime) && boundResize == old(boundResize)
      ensures outcome == Threw <==>
                old(phase) == Monogram && timestamp - old(stateStartTime) < AimWindowMs && monogramTargets == []
      ensures outcome == Finished <==> old(phase) == Explode && timestamp - old(stateStartTime) > ExplodeMs
      ensures outcome != Threw ==>
                Clock(phase, stateStartTime) == Tick(Clock(old(phase), old(stateStartTime)), timestamp)
      ensures outcome == Threw ==> phase == old(phase) && stateStartTime == old(stateStartTime)
      ensures framePending <==> outcome == Scheduled
      ensures finished <==> old(finished) || outcome == Finished
      ensures glowLit <==> old(glowLit) || old(phase) == GridWake
      ensures outcome != Scheduled ==>
                forall i :: 0 <= i < |particles| ==> particles[i].Snap() == old(particles[i].Snap())
      ensures outcome == Scheduled ==>
                forall i :: 0 <= i < |particles| ==>
                  particles[i].Snap() == Moved(Aimed(old(particles[i].Snap()), i, old(phase),
                                                     timestamp - old(stateStartTime), silhouetteTargets,
                                                     monogramTargets, picks[i]),
                                               phase, Centre(width, height), motion[i])
    {
      outcome := SwitchPhase(timestamp, picks);
      if outcome != Scheduled {
        framePending := false;
        return;
      }
      MoveParticles(motion);
      framePending := true;
    }

    /** `cleanup` as written: the pending frame is cancelled, and the removal binds
        `resize` anew, so it names a function never registered and every listener,
        the one added at start-up included, stays. */
    method CleanupAsWritten(win: Window)
      requires win.Valid()
      modifies this, win
      ensures !framePending
      ensures win.Valid() && win.resizeListeners == old(win.resizeListeners)
      ensures boundResize in old(win.resizeListeners) ==> boundResize in win.resizeListeners
      ensures particles == old(particles) && phase == old(phase) && stateStartTime == old(stateStartTime)
      ensures finished == old(finished) && boundResize == old(boundResize)
      ensures width == old(width) && height == old(height) && startTime == old(startTime)
      ensures silhouetteTargets == old(silhouetteTargets) && monogramTargets == old(monogramTargets)
      ensures glowLit == old(glowLit)
      ensures win.functionsMade == old(win.functionsMade) + 1
    {
      var f := win.Bind();
      win.RemoveResizeListener(f);
      framePending := false;
    }

    /** `cleanup` as intended: the pending frame is cancelled and the listener added at
        start-up is removed. */
    method Cleanup(win: Window)
      requires win.Valid()
      modifies this, win
      ensures !framePending
      ensures win.Valid() && win.resizeListeners == old(win.resizeListeners) - {boundResize}
      ensures boundResize !in win.resizeListeners
      ensures particles == old(particles) && phase == old(phase) && stateStartTime == old(stateStartTime)
      ensures finished == old(finished) && boundResize == old(boundResize)
      ensures width == old(width) && height == old(height) && startTime == old(startTime)
      ensures silhouetteTargets == old(silhouetteTargets) && monogramTargets == old(monogramTargets)
      ensures glowLit == old(glowLit)
      ensures win.functionsMade == old(win.functionsMade)
    {
      win.RemoveResizeListener(boundResize);
      framePending := false;
    }

    /** The start of `init`: size to the window, listen for resizes with a newly bound
        `resize`, and build both target lists. Building the monogram's throws on a
        window with a side of 0 (`threw`), after the listener is added and the
        silhouette's targets are stored, and leaves the monogram's targets unset. */
    method Prepare(win: Window, innerWidth: nat, innerHeight: nat, silhouette: seq<SilhouetteDraw>,
                   hasContext: bool, imageData: seq<int>) returns (threw: bool)
      requires win.Valid() && |silhouette| == ParticleCount
      modifies this, win
      ensures threw <==> hasContext && (innerWidth == 0 || innerHeight == 0)
      ensures win.Valid() && boundResize == old(win.functionsMade)
      ensures win.resizeListeners == old(win.resizeListeners) + {boundResize}
      ensures width == innerWidth && height == innerHeight
      ensures |silhouetteTargets| == ParticleCount
      ensures forall k :: 0 <= k < ParticleCount ==>
                silhouetteTargets[k] == SilhouettePoint(innerWidth, innerHeight, silhouette[k])
      ensures threw ==> monogramTargets == old(monogramTargets)
      ensures !threw && !hasContext ==> monogramTargets == []
      ensures !threw && hasContext ==> |monogramTargets| == ParticleCount
      ensures hasContext && innerWidth > 0 && innerHeight > 0 ==>
                SampledMonogram(monogramTargets, imageData, innerWidth, innerHeight)
      ensures particles == old(particles) && phase == old(phase)
      ensures startTime == old(startTime) && stateStartTime == old(stateStartTime)
      ensures framePending == old(framePending) && finished == old(finished) && glowLit == old(glowLit)
    {
      Resize(innerWidth, innerHeight);
      boundResize := win.Bind();
      win.AddResizeListener(boundResize);
      silhouetteTargets := GenerateSilhouetteTargets(silhouette);
      var targets;
      targets, threw := GenerateMonogramTargets(hasContext, imageData);
      if !threw {
        monogramTargets := targets;
      }
    }

    /** The end of `init`: the clock starts at `now` and the first frame runs; 0 ms into
        the scan nothing moves, and the next frame is requested. */
    method Start(now: int)
      requires Valid() && phase == Scan && !finished && !glowLit
      modifies this, particles
      ensures Valid() && framePending && !finished && !glowLit
      ensures phase == Scan && stateStartTime == now && startTime == now
      ensures particles == old(particles) && width == old(width) && height == old(height)
      ensures silhouetteTargets == old(silhouetteTargets) && monogramTargets == old(monogramTargets)
      ensures boundResize == old(boundResize)
      ensures forall i :: 0 <= i < |particles| ==> particles[i].Snap() == old(particles[i].Snap())
    {
      startTime := now;
      stateStartTime := startTime;
      var still := Motion(Point(0.0, 0.0), Point(0.0, 0.0), Point(0.0, 0.0), None, Point(0.0, 0.0));
      var outcome := Loop(startTime, seq(ParticleCount, _ => 0), seq(ParticleCount, _ => still));
      forall k | 0 <= k < |particles|
        ensures particles[k].Snap() == old(particles[k].Snap())
      {
        FirstFrameStill(old(particles[k].Snap()), k, silhouetteTargets, monogramTargets, 0,
                        Centre(width, height), still);
      }
    }

    /** `init`: size to the window, listen for resizes, build both target lists and
        the particles, start the clock and run the first frame. When building the
        monogram's targets throws (`threw`), `init` stops there: no particles, no
        clock, no frame, and the resize listener stays registered. */
    method Init(win: Window, innerWidth: nat, innerHeight: nat, silhouette: seq<SilhouetteDraw>,
                hasContext: bool, imageData: seq<int>, draws: seq<ParticleDraw>, now: int)
      returns (threw: bool)
      requires win.Valid() && particles == [] && phase == Scan && !finished && !glowLit && !framePending
      requires |silhouette| == ParticleCount
      requires |draws| >= ParticleCount
      requires forall k :: 0 <= k < |draws| ==> draws[k].symbol < |Symbols|
      modifies this, win
      ensures threw <==> hasContext && (innerWidth == 0 || innerHeight == 0)
      ensures win.Valid() && boundResize == old(win.functionsMade)
      ensures win.resizeListeners == old(win.resizeListeners) + {boundResize}
      ensures width == innerWidth && height == innerHeight
      ensures phase == Scan && !finished && !glowLit
      ensures |silhouetteTargets| == ParticleCount
      ensures forall k :: 0 <= k < |silhouetteTargets| ==>
                silhouetteTargets[k] == SilhouettePoint(innerWidth, innerHeight, silhouette[k])
      ensures !threw ==> Valid()
      ensures !threw ==> startTime == now && stateStartTime == now && framePending
      ensures !threw ==> (monogramTargets == [] <==> !hasContext)
      ensures hasContext && innerWidth > 0 && innerHeight > 0 ==>
                SampledMonogram(monogramTargets, imageData, innerWidth, innerHeight)
      ensures threw ==> particles == [] && monogramTargets == old(monogramTargets)
      ensures threw ==> startTime == old(startTime) && stateStartTime == old(stateStartTime)
      ensures threw ==> !framePending
      ensures forall k :: 0 <= k < |particles| ==> fresh(particles[k])
      ensures forall k :: 0 <= k < |particles| ==>
                particles[k].Snap() == InitialParticle(k, width, height, draws[k])
    {
      threw := Prepare(win, innerWidth, innerHeight, silhouette, hasContext, imageData);
      if !threw {
        Launch(draws, now);
      }
    }

    /** The rest of `init` once both target lists are built: the particles, then the
        clock and the first frame. */
    method Launch(draws: seq<ParticleDraw>, now: int)
      requires particles == [] && phase == Scan && !finished && !glowLit
      requires |silhouetteTargets| == ParticleCount
      requires |monogramTargets| == ParticleCount || monogramTargets == []
      requires |draws| >= ParticleCount
      requires forall k :: 0 <= k < |draws| ==> draws[k].symbol < |Symbols|
      modifies this
      ensures Valid() && framePending && !finished && !glowLit
      ensures phase == Scan && startTime == now && stateStartTime == now
      ensures width == old(width) && height == old(height) && boundResize == old(boundResize)
      ensures silhouetteTargets == old(silhouetteTargets) && monogramTargets == old(monogramTargets)
      ensures forall k :: 0 <= k < |particles| ==> fresh(particles[k])
      ensures forall k :: 0 <= k < |particles| ==>
                particles[k].Snap() == InitialParticle(k, width, height, draws[k])
    {
      InitParticles(draws);
      Start(now);
    }

    /** `new RitualController()`, which runs `init`. On a window with a side of 0
        (and a 2D context) `init` throws out of the constructor: no frame is ever
        requested, so the ritual never finishes, and the resize listener it added is
        left registered. */
    constructor (win: Window, innerWidth: nat, innerHeight: nat, silhouette: seq<SilhouetteDraw>,
                 hasContext: bool, imageData: seq<int>, draws: seq<ParticleDraw>, now: int)
      requires win.Valid()
      requires |silhouette| == ParticleCount
      requires |draws| >= ParticleCount
      requires forall k :: 0 <= k < |draws| ==> draws[k].symbol < |Symbols|
      modifies win
      ensures win.Valid() && boundResize == old(win.functionsMade)
      ensures win.resizeListeners == old(win.resizeListeners) + {boundResize}
      ensures width == innerWidth && height == innerHeight
      ensures phase == Scan && !finished && !glowLit
      ensures |silhouetteTargets| == ParticleCount
      ensures forall k :: 0 <= k < |silhouetteTargets| ==>
                silhouetteTargets[k] == SilhouettePoint(innerWidth, innerHeight, silhouette[k])
      ensures !(hasContext && (innerWidth == 0 || innerHeight == 0)) ==>
                Valid() && startTime == now && stateStartTime == now && framePending
                && (monogramTargets == [] <==> !hasContext)
      ensures hasContext && innerWidth > 0 && innerHeight > 0 ==>
                SampledMonogram(monogramTargets, imageData, innerWidth, innerHeight)
      ensures hasContext && (innerWidth == 0 || innerHeight == 0) ==>
                particles == [] && monogramTargets == [] && !framePending
      ensures forall k :: 0 <= k < |particles| ==> fresh(particles[k])
      ensures forall k :: 0 <= k < |particles| ==>
                particles[k].Snap() == InitialParticle(k, width, height, draws[k])
    {
      particles := [];
      width, height := 0, 0;
      phase := Scan;
      startTime, stateStartTime := 0, 0;
      silhouetteTargets, monogramTargets := [], [];
      framePending, finished, glowLit := false, false, false;
      boundResize := 0;
      new;
      var threw := Init(win, innerWidth, innerHeight, silhouette, hasContext, imageData, draws, now);
    }
  }

  /** The frame run at start-up, 0 ms into the scan, leaves every particle as it is. */
  lemma FirstFrameStill(s: ParticleState, i: nat, silhouette: seq<Point>, monogram: seq<Point>, pick: nat,
                        c: Point, m: Motion)
    requires i < |silhouette|
    ensures Moved(Aimed(s, i, Scan, 0, silhouette, monogram, pick), Step(Scan, 0), c, m) == s
  {
  }

  /** In the buffer `getImageData` returns for a `w` by `h` canvas, every pixel of the
      canvas is read from inside the buffer, so it is lit exactly when its red channel
      is above 128. */
  lemma FullBufferLit(data: seq<int>, x: nat, y: nat, w: nat, h: nat)
    requires x < w && y < h && |data| == w * h * 4
    ensures (y * w + x) * 4 + 3 < |data|
    ensures Lit(data, w, x, y) <==> data[(y * w + x) * 4] > 128
  {
    assert y * w <= (h - 1) * w by {
      assert (h - 1 - y) * w >= 0;
    }
    assert (h - 1) * w + w == h * w;
  }
}
