/** The hero section (src/app/components/Hero.tsx): the screen classes,
    the particle layer whose particles wrap around the edges, and the
    falling stars with their fading tails. Canvas sizes are the window's
    `innerWidth` and `innerHeight`; random draws are parameters. */
module Hero {
  import opened Seqs
  import opened Motion

  // ---------------------------------------------------------------------
  // Screen classes

  /** The `screenSize` state. */
  datatype ScreenSize = ScreenSize(isMobile: bool, isTablet: bool, isSmallScreen: bool)

  /** `checkScreenSize` for a window `innerWidth` pixels wide. */
  function CheckScreenSize(innerWidth: int): (s: ScreenSize)
    ensures s.isMobile <==> innerWidth < 640
    ensures s.isTablet <==> 640 <= innerWidth < 1024
    ensures s.isSmallScreen <==> innerWidth < 768
  {
    ScreenSize(innerWidth < 640, innerWidth >= 640 && innerWidth < 1024, innerWidth < 768)
  }

  /** A window is never both mobile and tablet; a mobile one is small, and
      from 1024 pixels on it is none of the three. */
  lemma ScreenClasses(innerWidth: int)
    ensures !(CheckScreenSize(innerWidth).isMobile && CheckScreenSize(innerWidth).isTablet)
    ensures CheckScreenSize(innerWidth).isMobile ==> CheckScreenSize(innerWidth).isSmallScreen
    ensures innerWidth >= 1024 ==> CheckScreenSize(innerWidth) == ScreenSize(false, false, false)
  {
  }

  // ---------------------------------------------------------------------
  // Particles

  /** `Math.min(Math.floor(window.innerWidth / 15), 80)`. */
  function BaseParticleCount(innerWidth: nat): (n: nat)
    ensures n <= 80 && n * 15 <= innerWidth
    ensures n == 80 || innerWidth < (n + 1) * 15
  {
    if innerWidth / 15 < 80 then innerWidth / 15 else 80
  }

  /** `particleCount`: halved on mobile, which may leave a half. */
  function ParticleCount(innerWidth: nat, isMobile: bool): real {
    if isMobile then BaseParticleCount(innerWidth) as real * 0.5 else BaseParticleCount(innerWidth) as real
  }

  /** The loop `for (let i = 0; i < particleCount; i++)` runs the base
      count times, or half of it rounded up on mobile; never more than 80
      times, nor more than 40 on mobile. */
  lemma ParticlesCreated(innerWidth: nat, isMobile: bool)
    ensures !isMobile ==> LoopCount(ParticleCount(innerWidth, isMobile)) == BaseParticleCount(innerWidth)
    ensures isMobile ==> LoopCount(ParticleCount(innerWidth, isMobile)) == (BaseParticleCount(innerWidth) + 1) / 2
    ensures LoopCount(ParticleCount(innerWidth, isMobile)) <= (if isMobile then 40 else 80)
  {
    var b := BaseParticleCount(innerWidth);
    var n := LoopCount(ParticleCount(innerWidth, isMobile));
    if isMobile {
      var h := (b + 1) / 2;
      assert b as real * 0.5 <= h as real;
    } else {
      LoopCountWhole(b);
    }
  }

  /** A whole count runs exactly that many times. */
  lemma LoopCountWhole(n: nat)
    ensures LoopCount(n as real) == n
  {
  }

  /** A colour `rgba(r, g, b, a)`. */
  datatype Rgba = Rgba(r: int, g: int, b: int, a: real)

  /** A particle of the hero layer. */
  datatype HeroParticle = HeroParticle(x: Axis, y: Axis, size: real, color: Rgba)

  /** A random draw: a value in `[0, 1)`. */
  predicate IsDraw(d: real) { 0.0 <= d < 1.0 }

  ghost predicate Draws(draw: nat -> real) {
    forall n: nat :: IsDraw(draw(n))
  }

  /** The particle pushed by turn `k` of `createParticles`: the draws `9k`
      to `9k + 8`, read as x, y, size, speedX, speedY and the four colour
      components. */
  function NewHeroParticle(draw: nat -> real, k: nat, width: real, height: real): HeroParticle {
    var b := 9 * k;
    HeroParticle(
      Axis(draw(b) * width, (draw(b + 3) - 0.5) * 0.3),
      Axis(draw(b + 1) * height, (draw(b + 4) - 0.5) * 0.3),
      draw(b + 2) * 2.0 + 0.5,
      Rgba((draw(b + 5) * 100.0 + 155.0).Floor, (draw(b + 6) * 100.0 + 155.0).Floor,
           (draw(b + 7) * 255.0).Floor, draw(b + 8) * 0.2 + 0.1))
  }

  /** With draws in `[0, 1)` a new particle starts on the canvas, moves by
      less than 0.15 a frame along each axis, and has red and green in
      `[155, 254]`, blue in `[0, 254]` and alpha in `[0.1, 0.3)`. */
  lemma NewHeroParticleRanges(draw: nat -> real, k: nat, width: real, height: real)
    requires Draws(draw) && width >= 0.0 && height >= 0.0
    ensures var p := NewHeroParticle(draw, k, width, height);
      && 0.0 <= p.x.pos <= width && 0.0 <= p.y.pos <= height
      && -0.15 <= p.x.speed < 0.15 && -0.15 <= p.y.speed < 0.15
      && 155 <= p.color.r <= 254 && 155 <= p.color.g <= 254 && 0 <= p.color.b <= 254
      && 0.1 <= p.color.a < 0.3
  {
    var b := 9 * k;
    assert IsDraw(draw(b)) && IsDraw(draw(b + 1)) && IsDraw(draw(b + 3)) && IsDraw(draw(b + 4));
    assert IsDraw(draw(b + 5)) && IsDraw(draw(b + 6)) && IsDraw(draw(b + 7)) && IsDraw(draw(b + 8));
    ScaleDraw(draw(b), width);
    ScaleDraw(draw(b + 1), height);
    FloorBelow(draw(b + 5) * 100.0 + 155.0, 155, 255);
    FloorBelow(draw(b + 6) * 100.0 + 155.0, 155, 255);
    FloorBelow(draw(b + 7) * 255.0, 0, 255);
    var p := NewHeroParticle(draw, k, width, height);
    assert p.x.pos == draw(b) * width && p.y.pos == draw(b + 1) * height;
  }

  lemma ScaleDraw(d: real, extent: real)
    requires IsDraw(d) && extent >= 0.0
    ensures 0.0 <= d * extent <= extent
  {
    assert extent - d * extent == (1.0 - d) * extent;
  }

  /** `Math.floor` of a value in `[lo, hi)` is in `[lo, hi - 1]`. */
  lemma FloorBelow(r: real, lo: int, hi: int)
    requires lo as real <= r < hi as real
    ensures lo <= r.Floor <= hi - 1
  {
  }

  /** One frame for one particle: both axes wrap around. */
  function WrapParticle(p: HeroParticle, width: real, height: real): (q: HeroParticle)
    ensures q.size == p.size && q.color == p.color
  {
    HeroParticle(Wrap(p.x, width), Wrap(p.y, height), p.size, p.color)
  }

  /** The particle layer of one run of the particle effect. The count is
      fixed when the effect starts; a resize rebuilds the particles with
      that same count. */
  class ParticleLayer {
    var particles: seq<HeroParticle>
    var width: real
    var height: real
    const particleCount: real

    /** Every particle is on the canvas. */
    predicate Valid()
      reads this
    {
      && width >= 0.0 && height >= 0.0
      && forall k :: 0 <= k < |particles| ==>
        0.0 <= particles[k].x.pos <= width && 0.0 <= particles[k].y.pos <= height
    }

    /** The start of the effect: the canvas takes the window's size, the
        count is fixed and `createParticles` runs. */
    constructor (innerWidth: nat, innerHeight: nat, isMobile: bool, draw: nat -> real)
      requires Draws(draw)
      ensures Valid() && width == innerWidth as real && height == innerHeight as real
      ensures particleCount == ParticleCount(innerWidth, isMobile)
      ensures |particles| == LoopCount(particleCount)
      ensures forall k :: 0 <= k < |particles| ==> particles[k] == NewHeroParticle(draw, k, width, height)
    {
      width := innerWidth as real;
      height := innerHeight as real;
      particleCount := ParticleCount(innerWidth, isMobile);
      particles := [];
      new;
      CreateParticles(draw);
    }

    /** `createParticles`: empty the array, then push a particle for each
        turn of the loop. */
    method CreateParticles(draw: nat -> real)
      requires Valid() && Draws(draw)
      modifies this
      ensures Valid() && width == old(width) && height == old(height)
      ensures |particles| == LoopCount(particleCount)
      ensures forall k :: 0 <= k < |particles| ==> particles[k] == NewHeroParticle(draw, k, width, height)
    {
      particles := [];
      for i := 0 to LoopCount(particleCount)
        invariant width == old(width) && height == old(height) && |particles| == i
        invariant forall k :: 0 <= k < i ==> particles[k] == NewHeroParticle(draw, k, width, height)
        invariant Valid()
      {
        NewHeroParticleRanges(draw, i, width, height);
        particles := particles + [NewHeroParticle(draw, i, width, height)];
      }
    }

    /** The update of `animateParticles`: every particle moves and wraps. */
    method AnimateParticles()
      requires Valid()
      modifies this
      ensures Valid() && width == old(width) && height == old(height)
      ensures |particles| == |old(particles)|
      ensures forall k :: 0 <= k < |particles| ==> particles[k] == WrapParticle(old(particles)[k], width, height)
    {
      for i := 0 to |particles|
        invariant width == old(width) && height == old(height) && |particles| == |old(particles)|
        invariant forall k :: 0 <= k < i ==> particles[k] == WrapParticle(old(particles)[k], width, height)
        invariant forall k :: i <= k < |particles| ==> particles[k] == old(particles)[k]
        invariant Valid()
      {
        var p := particles[i];
        particles := particles[i := WrapParticle(p, width, height)];
      }
    }

    /** `handleResize`: the canvas takes the new window size and the
        particles are created again, with the count of the effect. */
    method HandleResize(innerWidth: nat, innerHeight: nat, draw: nat -> real)
      requires Valid() && Draws(draw)
      modifies this
      ensures Valid() && width == innerWidth as real && height == innerHeight as real
      ensures |particles| == LoopCount(particleCount)
      ensures forall k :: 0 <= k < |particles| ==> particles[k] == NewHeroParticle(draw, k, width, height)
    {
      width, height := innerWidth as real, innerHeight as real;
      particles := [];
      CreateParticles(draw);
    }
  }

  // ---------------------------------------------------------------------
  // Stars

  /** `Math.min(Math.floor(window.innerWidth / 10), 50)`. */
  function BaseStarCount(innerWidth: nat): (n: nat)
    ensures n <= 50 && n * 10 <= innerWidth
    ensures n == 50 || innerWidth < (n + 1) * 10
  {
    if innerWidth / 10 < 50 then innerWidth / 10 else 50
  }

  /** `starCount`: scaled by 0.7 on tablets. */
  function StarCount(innerWidth: nat, isTablet: bool): real {
    if isTablet then BaseStarCount(innerWidth) as real * 0.7 else BaseStarCount(innerWidth) as real
  }

  /** At most 50 stars, at most 35 on tablets, and the whole base count
      elsewhere. */
  lemma StarsCreated(innerWidth: nat, isTablet: bool)
    ensures LoopCount(StarCount(innerWidth, isTablet)) <= (if isTablet then 35 else 50)
    ensures !isTablet ==> LoopCount(StarCount(innerWidth, isTablet)) == BaseStarCount(innerWidth)
  {
    var b := BaseStarCount(innerWidth);
    if isTablet {
      var n := LoopCount(StarCount(innerWidth, isTablet));
      assert b as real * 0.7 <= 35.0;
    } else {
      LoopCountWhole(b);
    }
  }

  /** A point of a star's tail. */
  datatype TailPart = TailPart(x: real, y: real, opacity: real)

  /** A falling star. */
  datatype Star = Star(x: real, y: real, size: real, speed: real, opacity: real, tail: seq<TailPart>)

  /** The star pushed by turn `k` of `createStars`: the draws `5k` to
      `5k + 4`, read as x, y, size, speed and opacity. */
  function NewStar(draw: nat -> real, k: nat, width: real, height: real): Star {
    var b := 5 * k;
    Star(draw(b) * width, draw(b + 1) * height, draw(b + 2) * 1.5 + 0.5, draw(b + 3) * 2.0 + 0.5, draw(b + 4), [])
  }

  /** The draws one star may take in one frame: one for the tail test and,
      when it is replaced, three for the new star's x, size and speed. */
  datatype StarDraws = StarDraws(tail: real, x: real, size: real, speed: real)

  predicate IsStarDraws(d: StarDraws) {
    IsDraw(d.tail) && IsDraw(d.x) && IsDraw(d.size) && IsDraw(d.speed)
  }

  /** `tailPart.opacity -= 0.02` for every part. */
  function Aged(tail: seq<TailPart>): (r: seq<TailPart>)
    ensures |r| == |tail|
    ensures forall i :: 0 <= i < |r| ==> r[i] == TailPart(tail[i].x, tail[i].y, tail[i].opacity - 0.02)
  {
    seq(|tail|, i requires 0 <= i < |tail| => TailPart(tail[i].x, tail[i].y, tail[i].opacity - 0.02))
  }

  /** `(part) => part.opacity > 0`. */
  predicate Visible(part: TailPart) { part.opacity > 0.0 }

  /** The tail after the aging and the filter, then the optional new part
      at the star's position. */
  function NextTail(s: Star, tailDraw: real): (r: seq<TailPart>)
    ensures |r| <= |s.tail| + 1
    ensures tailDraw <= 0.5 ==> |r| <= |s.tail|
    ensures tailDraw > 0.5 ==> |r| >= 1 && r[|r| - 1] == TailPart(s.x, s.y, s.opacity * 0.8)
  {
    var kept := if |s.tail| > 0 then Filter(Aged(s.tail), Visible) else s.tail;
    if tailDraw > 0.5 then kept + [TailPart(s.x, s.y, s.opacity * 0.8)] else kept
  }

  /** The star a replacement puts at the top of the canvas. */
  function Respawned(d: StarDraws, width: real): Star {
    Star(d.x * width, 0.0, d.size * 1.5 + 0.5, d.speed * 2.0 + 0.5, 1.0, [])
  }

  /** One frame of `animateStars` for one star: tail, fall and fade, and a
      replacement when it left the canvas or faded out. */
  function StepStar(s: Star, d: StarDraws, width: real, height: real): (r: Star)
    ensures s.y + s.speed > height || s.opacity - 0.005 <= 0.0 ==> r == Respawned(d, width)
    ensures !(s.y + s.speed > height || s.opacity - 0.005 <= 0.0) ==>
      && r == Star(s.x, s.y + s.speed, s.size, s.speed, s.opacity - 0.005, NextTail(s, d.tail))
      && r.y <= height && r.opacity > 0.0
  {
    var y := s.y + s.speed;
    var opacity := s.opacity - 0.005;
    if y > height || opacity <= 0.0 then Respawned(d, width)
    else Star(s.x, y, s.size, s.speed, opacity, NextTail(s, d.tail))
  }

  /** A star on the canvas, falling, with an opacity of at most 1. */
  predicate StarOk(s: Star, width: real, height: real) {
    0.0 <= s.x <= width && 0.0 <= s.y <= height && s.speed > 0.0 && s.opacity <= 1.0
  }

  /** A new star is on the canvas and falls at 0.5 to 2.5 a frame. */
  lemma NewStarOk(draw: nat -> real, k: nat, width: real, height: real)
    requires Draws(draw) && width >= 0.0 && height >= 0.0
    ensures StarOk(NewStar(draw, k, width, height), width, height)
    ensures 0.5 <= NewStar(draw, k, width, height).speed < 2.5
  {
    var b := 5 * k;
    assert IsDraw(draw(b)) && IsDraw(draw(b + 1)) && IsDraw(draw(b + 3)) && IsDraw(draw(b + 4));
    ScaleDraw(draw(b), width);
    ScaleDraw(draw(b + 1), height);
    var s := NewStar(draw, k, width, height);
    assert s.x == draw(b) * width && s.y == draw(b + 1) * height;
    assert s.speed == draw(b + 3) * 2.0 + 0.5 && s.opacity == draw(b + 4);
  }

  /** After a frame a star is on the canvas with an opacity in `(0, 1]`;
      a star that is not replaced has fallen by its speed and faded by
      0.005, and every part that survived the aging is still visible. */
  lemma StepStarOk(s: Star, d: StarDraws, width: real, height: real)
    requires StarOk(s, width, height) && IsStarDraws(d) && width >= 0.0 && height >= 0.0
    ensures var t := StepStar(s, d, width, height);
      && StarOk(t, width, height) && 0.0 < t.opacity
      && (t.y == 0.0 || (t.y == s.y + s.speed && t.opacity == s.opacity - 0.005))
  {
    var y := s.y + s.speed;
    var opacity := s.opacity - 0.005;
    if y > height || opacity <= 0.0 {
      RespawnedOk(d, width, height);
      assert StepStar(s, d, width, height) == Respawned(d, width);
    } else {
      assert StepStar(s, d, width, height) == Star(s.x, y, s.size, s.speed, opacity, NextTail(s, d.tail));
    }
  }

  /** A replacement star is at the top of the canvas, fully opaque. */
  lemma RespawnedOk(d: StarDraws, width: real, height: real)
    requires IsStarDraws(d) && width >= 0.0 && height >= 0.0
    ensures StarOk(Respawned(d, width), width, height) && Respawned(d, width).opacity == 1.0
  {
    ScaleDraw(d.x, width);
    var t := Respawned(d, width);
    assert t.x == d.x * width;
  }

  /** The tail of a star that is not replaced: the aged parts that are
      still visible, in order, then the new part when the draw is above
      one half; so without a new part the tail never grows. */
  lemma NextTailShape(s: Star, tailDraw: real)
    ensures var kept := Filter(Aged(s.tail), Visible);
      && (tailDraw > 0.5 ==> NextTail(s, tailDraw) == kept + [TailPart(s.x, s.y, s.opacity * 0.8)])
      && (tailDraw <= 0.5 ==> NextTail(s, tailDraw) == kept && |NextTail(s, tailDraw)| <= |s.tail|)
      && IsSubseq(kept, Aged(s.tail))
      && forall p :: p in kept ==> p.opacity > 0.0
  {
    FilterIsSubseq(Aged(s.tail), Visible);
    if |s.tail| == 0 {
      assert Aged(s.tail) == [];
      FilterNone(Aged(s.tail), Visible);
    }
  }

  /** The stars of one run of the star effect, with the count fixed when
      it starts. */
  class StarLayer {
    var stars: seq<Star>
    var width: real
    var height: real
    const starCount: real

    predicate Valid()
      reads this
    {
      && width >= 0.0 && height >= 0.0
      && forall k :: 0 <= k < |stars| ==> StarOk(stars[k], width, height)
    }

    /** The start of the effect (off mobile): the canvas takes the window's
        size, the count is fixed and `createStars` runs. */
    constructor (innerWidth: nat, innerHeight: nat, isTablet: bool, draw: nat -> real)
      requires Draws(draw)
      ensures Valid() && width == innerWidth as real && height == innerHeight as real
      ensures starCount == StarCount(innerWidth, isTablet)
      ensures |stars| == LoopCount(starCount)
      ensures forall k :: 0 <= k < |stars| ==> stars[k] == NewStar(draw, k, width, height)
    {
      width := innerWidth as real;
      height := innerHeight as real;
      starCount := StarCount(innerWidth, isTablet);
      stars := [];
      new;
      CreateStars(draw);
    }

    /** `createStars`: empty the array, then push a star for each turn. */
    method CreateStars(draw: nat -> real)
      requires Valid() && Draws(draw)
      modifies this
      ensures Valid() && width == old(width) && height == old(height)
      ensures |stars| == LoopCount(starCount)
      ensures forall k :: 0 <= k < |stars| ==> stars[k] == NewStar(draw, k, width, height)
    {
      stars := [];
      for i := 0 to LoopCount(starCount)
        invariant width == old(width) && height == old(height) && |stars| == i
        invariant forall k :: 0 <= k < i ==> stars[k] == NewStar(draw, k, width, height)
        invariant Valid()
      {
        NewStarOk(draw, i, width, height);
        stars := stars + [NewStar(draw, i, width, height)];
      }
    }

    /** The update of `animateStars`: star `i` takes its frame with the
        draws `draws(i)`; a replaced star is put back in place `i`. */
    method AnimateStars(draws: nat -> StarDraws)
      requires Valid() && forall n: nat :: IsStarDraws(draws(n))
      modifies this
      ensures Valid() && width == old(width) && height == old(height)
      ensures |stars| == |old(stars)|
      ensures forall k :: 0 <= k < |stars| ==> stars[k] == StepStar(old(stars)[k], draws(k), width, height)
      ensures forall k :: 0 <= k < |stars| ==> 0.0 < stars[k].opacity
    {
      for i := 0 to |stars|
        invariant width == old(width) && height == old(height) && |stars| == |old(stars)|
        invariant forall k :: 0 <= k < i ==> stars[k] == StepStar(old(stars)[k], draws(k), width, height)
        invariant forall k :: 0 <= k < i ==> 0.0 < stars[k].opacity
        invariant forall k :: i <= k < |stars| ==> stars[k] == old(stars)[k]
        invariant Valid()
      {
        StepStarOk(stars[i], draws(i), width, height);
        stars := stars[i := StepStar(stars[i], draws(i), width, height)];
      }
    }

    /** `handleResize`: the canvas takes the new window size and the stars
        are created again, with the count of the effect. */
    method HandleResize(innerWidth: nat, innerHeight: nat, draw: nat -> real)
      requires Valid() && Draws(draw)
      modifies this
      ensures Valid() && width == innerWidth as real && height == innerHeight as real
      ensures |stars| == LoopCount(starCount)
      ensures forall k :: 0 <= k < |stars| ==> stars[k] == NewStar(draw, k, width, height)
    {
      width, height := innerWidth as real, innerHeight as real;
      stars := [];
      CreateStars(draw);
    }
  }

  /** The star effect: nothing at all on mobile, otherwise a star layer
      for the window. */
  method StartStars(screen: ScreenSize, innerWidth: nat, innerHeight: nat, draw: nat -> real)
    returns (layer: StarLayer?)
    requires Draws(draw)
    ensures screen.isMobile <==> layer == null
    ensures layer != null ==>
      && fresh(layer) && layer.Valid()
      && |layer.stars| == LoopCount(StarCount(innerWidth, screen.isTablet))
  {
    if screen.isMobile {
      return null;
    }
    layer := new StarLayer(innerWidth, innerHeight, screen.isTablet, draw);
  }
}
