/**
 * The particle visualisation: a fixed array of particles that drift, bounce
 * off the canvas edges and are nudged by the frequency bin each one samples.
 * `Math.random()` values are passed in as draws in [0, 1).
 */
module ParticleSimulation {
  import opened Basics
  import opened Features
  import AudioProcessing

  const ParticleCount: nat := 80

  /** Pairs closer than this are joined by a line. */
  const LinkDistance: real := 100.0

  /** Draws per particle at creation (x, y, vx, vy, radius), per update (vx, vy) and per resize (x, y). */
  const SpawnDraws: nat := 5
  const JitterDraws: nat := 2
  const PlacementDraws: nat := 2

  datatype Particle = Particle(x: real, y: real, vx: real, vy: real, radius: real)

  /** A line between particles `i < j`, with the squared distance it was drawn for. */
  datatype Link = Link(i: nat, j: nat, distanceSquared: real)

  function Abs(a: real): real {
    if a < 0.0 then -a else a
  }

  /** `r * extent` for a draw `r` lies in [0, extent), or is 0 on an empty extent. */
  predicate Within(c: real, extent: nat) {
    0.0 <= c <= extent as real && (extent > 0 ==> c < extent as real)
  }

  lemma ScaledDrawWithin(r: real, extent: nat)
    requires IsUnitDraw(r)
    ensures Within(r * (extent as real), extent)
  {
    var e := extent as real;
    ProductNonNegative(r, e);
    assert e - r * e == (1.0 - r) * e;
    ProductNonNegative(1.0 - r, e);
    if extent > 0 {
      assert (1.0 - r) * e > 0.0;
    }
  }

  /** One particle of the constructor's loop, from its five draws. */
  function Spawn(draws: seq<real>, width: nat, height: nat): (p: Particle)
    requires |draws| == SpawnDraws && AllUnitDraws(draws)
    ensures Within(p.x, width) && Within(p.y, height)
    ensures -1.0 <= p.vx < 1.0 && -1.0 <= p.vy < 1.0
    ensures 1.0 <= p.radius < 4.0
  {
    ScaledDrawWithin(draws[0], width);
    ScaledDrawWithin(draws[1], height);
    Particle(
      draws[0] * (width as real),
      draws[1] * (height as real),
      (draws[2] - 0.5) * 2.0,
      (draws[3] - 0.5) * 2.0,
      draws[4] * 3.0 + 1.0)
  }

  /** The velocity after the edge test: negated exactly when the new position lies outside [0, extent]. */
  function Bounce(position: real, velocity: real, extent: nat): real {
    if position < 0.0 || position > extent as real then -velocity else velocity
  }

  lemma MulLessMonotonic(a: int, b: int, c: int)
    requires 0 <= a < b && 0 < c
    ensures a * c < b * c
  {
    assert b * c - a * c == (b - a) * c;
  }

  /** `Math.floor((i / n) * len)`: the frequency bin particle `i` of `n` samples. */
  function BinIndex(i: nat, n: nat, len: nat): (k: nat)
    requires i < n && 0 < len
    ensures k < len
  {
    MulLessMonotonic(i, n, len);
    DivBelow(i * len, n, len);
    (i * len) / n
  }

  /** The bin index is the floor of the real-valued expression of the program. */
  lemma BinIndexIsFloor(i: nat, n: nat, len: nat)
    requires i < n && 0 < len
    ensures var k := BinIndex(i, n, len);
      (k as real) <= (i as real) / (n as real) * (len as real) < (k + 1) as real
  {
    var k := BinIndex(i, n, len);
    var a := i * len;
    var r := a % n;
    assert a == n * k + r && 0 <= r < n;
    var nr := n as real;
    assert (i as real) / nr * (len as real) == (a as real) / nr;
    SplitQuotient(a as real, nr, k as real, r as real);
    FractionBelowOne(r as real, nr);
  }

  /** `data[freqIndex] / 255` for particle `i` of `n`. */
  function BinIntensity(i: nat, n: nat, data: seq<Byte>): (intensity: real)
    requires i < n && 0 < |data|
    ensures 0.0 <= intensity <= 1.0
  {
    (data[BinIndex(i, n, |data|)] as real) / 255.0
  }

  /** `(Math.random() - 0.5) * intensity * 0.5`. */
  function Perturbation(r: real, intensity: real): real {
    (r - 0.5) * intensity * 0.5
  }

  /** The audio nudge of a velocity component is at most a quarter of the bin's intensity. */
  lemma PerturbationBounded(r: real, intensity: real)
    requires IsUnitDraw(r) && 0.0 <= intensity
    ensures Abs(Perturbation(r, intensity)) <= 0.25 * intensity
  {
    var p := Perturbation(r, intensity);
    assert p == (r - 0.5) * (0.5 * intensity);
    var h := 0.5 * intensity;
    assert 0.25 * intensity - p == (1.0 - r) * h;
    ProductNonNegative(1.0 - r, h);
    assert 0.25 * intensity + p == r * h;
    ProductNonNegative(r, h);
  }

  /** One particle of `update()`: move by its own velocity, bounce at the edges, then take the audio nudge. */
  function Step(p: Particle, i: nat, n: nat, data: seq<Byte>, width: nat, height: nat, rx: real, ry: real): (q: Particle)
    requires i < n && 0 < |data| && IsUnitDraw(rx) && IsUnitDraw(ry)
    ensures q.x == p.x + p.vx && q.y == p.y + p.vy && q.radius == p.radius
    ensures Abs(q.vx - Bounce(p.x + p.vx, p.vx, width)) <= 0.25 * BinIntensity(i, n, data)
    ensures Abs(q.vy - Bounce(p.y + p.vy, p.vy, height)) <= 0.25 * BinIntensity(i, n, data)
  {
    var x, y := p.x + p.vx, p.y + p.vy;
    var intensity := BinIntensity(i, n, data);
    PerturbationBounded(rx, intensity);
    PerturbationBounded(ry, intensity);
    Particle(
      x, y,
      Bounce(x, p.vx, width) + Perturbation(rx, intensity),
      Bounce(y, p.vy, height) + Perturbation(ry, intensity),
      p.radius)
  }

  /** No cap on speed, but one frame adds at most 0.25 to either velocity component's magnitude. */
  lemma SpeedGrowthPerFrame(p: Particle, i: nat, n: nat, data: seq<Byte>, width: nat, height: nat, rx: real, ry: real)
    requires i < n && 0 < |data| && IsUnitDraw(rx) && IsUnitDraw(ry)
    ensures var q := Step(p, i, n, data, width, height, rx, ry);
      Abs(q.vx) <= Abs(p.vx) + 0.25 && Abs(q.vy) <= Abs(p.vy) + 0.25
  {
  }

  /** One particle of `resize()`: a new place from two draws, everything else kept. */
  function Place(p: Particle, rx: real, ry: real, width: nat, height: nat): (q: Particle)
    requires IsUnitDraw(rx) && IsUnitDraw(ry)
    ensures Within(q.x, width) && Within(q.y, height)
    ensures q.vx == p.vx && q.vy == p.vy && q.radius == p.radius
  {
    ScaledDrawWithin(rx, width);
    ScaledDrawWithin(ry, height);
    p.(x := rx * (width as real), y := ry * (height as real))
  }

  function DistanceSquared(p: Particle, q: Particle): real {
    (p.x - q.x) * (p.x - q.x) + (p.y - q.y) * (p.y - q.y)
  }

  /** `Math.sqrt(dx*dx + dy*dy) < maxDistance`, compared squared. */
  predicate Linked(p: Particle, q: Particle) {
    DistanceSquared(p, q) < LinkDistance * LinkDistance
  }

  /** For a distance `d` below 100, the line opacity `1 - d / 100` lies in (0, 1]. */
  lemma OpacityInRange(d: real)
    requires 0.0 <= d && d * d < LinkDistance * LinkDistance
    ensures 0.0 < 1.0 - d / LinkDistance <= 1.0
  {
  }

  /** `x` comes strictly before `y` in the order the nested loops visit pairs. */
  predicate PairBefore(x: Link, y: Link) {
    x.i < y.i || (x.i == y.i && x.j < y.j)
  }

  /** Every link joins a pair `i < j` of `ps` that is close enough, with its squared distance. */
  ghost predicate LinksSound(ps: seq<Particle>, links: seq<Link>) {
    forall k :: 0 <= k < |links| ==>
      && links[k].i < links[k].j < |ps|
      && links[k].distanceSquared == DistanceSquared(ps[links[k].i], ps[links[k].j])
      && links[k].distanceSquared < LinkDistance * LinkDistance
  }

  /** Links are in visiting order, so no pair appears twice. */
  ghost predicate LinksOrdered(links: seq<Link>) {
    forall k, l :: 0 <= k < l < |links| ==> PairBefore(links[k], links[l])
  }

  /** Every close pair `a < b` visited before `(i, j)` is listed. */
  ghost predicate LinksCover(ps: seq<Particle>, links: seq<Link>, i: nat, j: nat) {
    forall a, b :: 0 <= a < b < |ps| && (a < i || (a == i && b < j)) && Linked(ps[a], ps[b]) ==>
      Link(a, b, DistanceSquared(ps[a], ps[b])) in links
  }

  /** Every link names a pair visited before `(i, j)`. */
  predicate LinksBefore(links: seq<Link>, i: nat, j: nat) {
    forall k :: 0 <= k < |links| ==> links[k].i < i || (links[k].i == i && links[k].j < j)
  }

  /** One visit of the inner loop: pair `(i, j)` is appended exactly when it is close enough. */
  function VisitPair(ps: seq<Particle>, links: seq<Link>, i: nat, j: nat): seq<Link>
    requires i < j < |ps|
  {
    if Linked(ps[i], ps[j]) then links + [Link(i, j, DistanceSquared(ps[i], ps[j]))] else links
  }

  lemma AppendKeepsSound(ps: seq<Particle>, links: seq<Link>, link: Link)
    requires LinksSound(ps, links)
    requires link.i < link.j < |ps| && link.distanceSquared == DistanceSquared(ps[link.i], ps[link.j])
    requires link.distanceSquared < LinkDistance * LinkDistance
    ensures LinksSound(ps, links + [link])
  {
    var next := links + [link];
    assert forall k :: 0 <= k < |links| ==> next[k] == links[k];
  }

  lemma AppendKeepsOrdered(links: seq<Link>, link: Link)
    requires LinksOrdered(links) && LinksBefore(links, link.i, link.j)
    ensures LinksOrdered(links + [link]) && LinksBefore(links + [link], link.i, link.j + 1)
  {
    var next := links + [link];
    assert forall k :: 0 <= k < |links| ==> next[k] == links[k];
  }

  /** Moving past `(i, j)` keeps every visited close pair listed, given that `(i, j)` itself is listed when close. */
  lemma CoverStep(ps: seq<Particle>, links: seq<Link>, next: seq<Link>, i: nat, j: nat)
    requires i < j < |ps| && LinksCover(ps, links, i, j)
    requires forall l :: l in links ==> l in next
    requires Linked(ps[i], ps[j]) ==> Link(i, j, DistanceSquared(ps[i], ps[j])) in next
    ensures LinksCover(ps, next, i, j + 1)
  {
    forall a, b | 0 <= a < b < |ps| && (a < i || (a == i && b < j + 1)) && Linked(ps[a], ps[b])
      ensures Link(a, b, DistanceSquared(ps[a], ps[b])) in next
    {
      if !(a == i && b == j) {
        assert Link(a, b, DistanceSquared(ps[a], ps[b])) in links;
      }
    }
  }

  lemma VisitPairKeepsInvariant(ps: seq<Particle>, links: seq<Link>, i: nat, j: nat)
    requires i < j < |ps|
    requires LinksSound(ps, links) && LinksOrdered(links) && LinksBefore(links, i, j)
    requires LinksCover(ps, links, i, j)
    ensures var next := VisitPair(ps, links, i, j);
      LinksSound(ps, next) && LinksOrdered(next) && LinksBefore(next, i, j + 1) && LinksCover(ps, next, i, j + 1)
  {
    var next := VisitPair(ps, links, i, j);
    if Linked(ps[i], ps[j]) {
      var link := Link(i, j, DistanceSquared(ps[i], ps[j]));
      AppendKeepsSound(ps, links, link);
      AppendKeepsOrdered(links, link);
      assert next[|links|] == link;
    }
    CoverStep(ps, links, next, i, j);
  }

  /** Entering row `i`: no pair `(i, b)` with `b <= i` exists. */
  lemma RowStart(ps: seq<Particle>, links: seq<Link>, i: nat)
    requires LinksBefore(links, i, 0) && LinksCover(ps, links, i, 0)
    ensures LinksBefore(links, i, i + 1) && LinksCover(ps, links, i, i + 1)
  {
  }

  /** Leaving row `i` after its last column. */
  lemma RowEnd(ps: seq<Particle>, links: seq<Link>, i: nat)
    requires LinksBefore(links, i, |ps|) && LinksCover(ps, links, i, |ps|)
    ensures LinksBefore(links, i + 1, 0) && LinksCover(ps, links, i + 1, 0)
  {
  }

  /** Ordered links name each pair at most once. */
  lemma OrderedLinksAreDistinct(links: seq<Link>)
    requires LinksOrdered(links)
    ensures forall k, l :: 0 <= k < l < |links| ==> (links[k].i, links[k].j) != (links[l].i, links[l].j)
  {
  }

  class ParticleVisualization {
    const canvas: Canvas
    const processor: AudioProcessing.AudioProcessor
    const particles: array<Particle>

    ghost predicate Valid() {
      particles.Length == ParticleCount && processor.Buffers()
    }

    /** Creates `ParticleCount` particles, particle `k` from draws `5k .. 5k+4`. */
    constructor (canvas: Canvas, processor: AudioProcessing.AudioProcessor, draws: seq<real>)
      requires processor.Buffers()
      requires |draws| == SpawnDraws * ParticleCount && AllUnitDraws(draws)
      ensures Valid() && this.canvas == canvas && this.processor == processor && fresh(particles)
      ensures forall k :: 0 <= k < ParticleCount ==>
        particles[k] == Spawn(draws[SpawnDraws * k .. SpawnDraws * k + SpawnDraws], canvas.width, canvas.height)
    {
      this.canvas := canvas;
      this.processor := processor;
      particles := new Particle[ParticleCount];
      new;
      var i := 0;
      while i < ParticleCount
        invariant 0 <= i <= ParticleCount
        invariant forall k :: 0 <= k < i ==>
          particles[k] == Spawn(draws[SpawnDraws * k .. SpawnDraws * k + SpawnDraws], canvas.width, canvas.height)
      {
        particles[i] := Spawn(draws[SpawnDraws * i .. SpawnDraws * i + SpawnDraws], canvas.width, canvas.height);
        i := i + 1;
      }
    }

    /** `update()`: every particle takes one `Step`, reading the processor's current frequency buffer. */
    method Update(jitter: seq<real>)
      requires Valid()
      requires |jitter| == JitterDraws * ParticleCount && AllUnitDraws(jitter)
      modifies particles
      ensures forall k :: 0 <= k < ParticleCount ==>
        particles[k] == Step(old(particles[k]), k, ParticleCount, processor.frequencyData[..],
                             canvas.width, canvas.height, jitter[2 * k], jitter[2 * k + 1])
    {
      var data := processor.frequencyData;
      ghost var bins := data[..];
      var n := particles.Length;
      var i := 0;
      while i < n
        invariant 0 <= i <= n
        invariant forall k :: 0 <= k < i ==>
          particles[k] == Step(old(particles[k]), k, ParticleCount, bins,
                               canvas.width, canvas.height, jitter[2 * k], jitter[2 * k + 1])
        invariant forall k :: i <= k < n ==> particles[k] == old(particles[k])
      {
        var p := particles[i];
        var x, y := p.x + p.vx, p.y + p.vy;
        var vx := Bounce(x, p.vx, canvas.width);
        var vy := Bounce(y, p.vy, canvas.height);
        var freqIndex := BinIndex(i, n, data.Length);
        var intensity := (data[freqIndex] as real) / 255.0;
        vx := vx + Perturbation(jitter[2 * i], intensity);
        vy := vy + Perturbation(jitter[2 * i + 1], intensity);
        particles[i] := Particle(x, y, vx, vy, p.radius);
        assert particles[i] == Step(old(particles[i]), i, ParticleCount, bins,
                                    canvas.width, canvas.height, jitter[2 * i], jitter[2 * i + 1]);
        i := i + 1;
      }
    }

    /** `resize(width, height)`: the canvas takes the new size and every particle a new place. */
    method Resize(width: nat, height: nat, draws: seq<real>)
      requires Valid()
      requires |draws| == PlacementDraws * ParticleCount && AllUnitDraws(draws)
      modifies canvas, particles
      ensures canvas.width == width && canvas.height == height
      ensures forall k :: 0 <= k < ParticleCount ==>
        particles[k] == Place(old(particles[k]), draws[2 * k], draws[2 * k + 1], width, height)
    {
      canvas.width := width;
      canvas.height := height;
      var i := 0;
      while i < particles.Length
        invariant 0 <= i <= particles.Length
        invariant canvas.width == width && canvas.height == height
        invariant forall k :: 0 <= k < i ==>
          particles[k] == Place(old(particles[k]), draws[2 * k], draws[2 * k + 1], width, height)
        invariant forall k :: i <= k < particles.Length ==> particles[k] == old(particles[k])
      {
        particles[i] := particles[i].(x := draws[2 * i] * (width as real), y := draws[2 * i + 1] * (height as real));
        i := i + 1;
      }
    }

    /** The pair loops of `drawConnections()`: the lines drawn, in drawing order. */
    method DrawConnections() returns (links: seq<Link>)
      ensures LinksSound(particles[..], links)
      ensures LinksOrdered(links)
      ensures LinksCover(particles[..], links, particles.Length, 0)
    {
      ghost var ps := particles[..];
      var n := particles.Length;
      links := [];
      var i := 0;
      while i < n
        invariant 0 <= i <= n
        invariant LinksSound(ps, links) && LinksOrdered(links)
        invariant LinksBefore(links, i, 0)
        invariant LinksCover(ps, links, i, 0)
      {
        RowStart(ps, links, i);
        var j := i + 1;
        while j < n
          invariant i + 1 <= j <= n
          invariant LinksSound(ps, links) && LinksOrdered(links)
          invariant LinksBefore(links, i, j)
          invariant LinksCover(ps, links, i, j)
        {
          var p1, p2 := particles[i], particles[j];
          var distanceSquared := DistanceSquared(p1, p2);
          assert p1 == ps[i] && p2 == ps[j];
          VisitPairKeepsInvariant(ps, links, i, j);
          ghost var next := VisitPair(ps, links, i, j);
          if distanceSquared < LinkDistance * LinkDistance {
            links := links + [Link(i, j, distanceSquared)];
          }
          assert links == next;
          j := j + 1;
        }
        RowEnd(ps, links, i);
        i := i + 1;
      }
    }
  }
}
