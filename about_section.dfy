/** The about section (src/app/components/About.tsx): its particle
    background with the dot grid, the colour of a particle with its
    two-digit hex alpha, and the tabs. */
module AboutSection {
  import opened Wrappers
  import opened Seqs
  import opened Text
  import opened Icons
  import opened Motion
  import opened Grid

  // ---------------------------------------------------------------------
  // Particles

  /** A background particle and its base colour. */
  datatype AboutParticle = AboutParticle(x: Axis, y: Axis, size: real, opacity: real, color: string)

  /** `particleCount`. */
  const ParticleCount := 50

  /** The connection distance and the alpha of a line at distance 0. */
  const LineDistance := 100.0
  const LineAlphaBase := 0.1

  /** The two base colours. */
  const Blue := "#3b82f6"
  const Purple := "#8b5cf6"

  /** A random draw: a value in `[0, 1)`. */
  predicate IsDraw(d: real) { 0.0 <= d < 1.0 }

  ghost predicate Draws(draw: nat -> real) {
    forall n: nat :: IsDraw(draw(n))
  }

  /** The particle pushed by turn `k` of `initParticles`: the draws `7k` to
      `7k + 6`, read as size, x, y, speedX, speedY, opacity and the colour
      test. */
  function NewParticle(draw: nat -> real, k: nat, width: real, height: real): AboutParticle {
    var b := 7 * k;
    AboutParticle(
      Axis(draw(b + 1) * width, (draw(b + 3) - 0.5) * 0.3),
      Axis(draw(b + 2) * height, (draw(b + 4) - 0.5) * 0.3),
      draw(b) * 2.0 + 0.5,
      draw(b + 5) * 0.5 + 0.2,
      if draw(b + 6) > 0.5 then Blue else Purple)
  }

  lemma ScaleDraw(d: real, extent: real)
    requires IsDraw(d) && extent >= 0.0
    ensures 0.0 <= d * extent <= extent
  {
    assert extent - d * extent == (1.0 - d) * extent;
  }

  /** With draws in `[0, 1)` a new particle starts on the canvas with an
      opacity in `[0.2, 0.7)`, a size in `[0.5, 2.5)`, a speed below 0.15
      along each axis, and one of the two base colours. */
  lemma NewParticleRanges(draw: nat -> real, k: nat, width: real, height: real)
    requires Draws(draw) && width >= 0.0 && height >= 0.0
    ensures var p := NewParticle(draw, k, width, height);
      && 0.0 <= p.x.pos <= width && 0.0 <= p.y.pos <= height
      && -0.15 <= p.x.speed < 0.15 && -0.15 <= p.y.speed < 0.15
      && 0.5 <= p.size < 2.5 && 0.2 <= p.opacity < 0.7
      && (p.color == Blue || p.color == Purple)
  {
    var b := 7 * k;
    assert IsDraw(draw(b)) && IsDraw(draw(b + 1)) && IsDraw(draw(b + 2)) && IsDraw(draw(b + 3));
    assert IsDraw(draw(b + 4)) && IsDraw(draw(b + 5));
    ScaleDraw(draw(b + 1), width);
    ScaleDraw(draw(b + 2), height);
    var p := NewParticle(draw, k, width, height);
    assert p.x.pos == draw(b + 1) * width && p.y.pos == draw(b + 2) * height;
  }

  /** A particle inside the canvas or within one step of it, heading
      back in, with the opacity a new particle gets. */
  predicate ParticleOk(p: AboutParticle, width: real, height: real) {
    NearRange(p.x, width) && NearRange(p.y, height) && 0.2 <= p.opacity < 0.7
  }

  /** A new particle is one. */
  lemma NewParticleOk(draw: nat -> real, k: nat, width: real, height: real)
    requires Draws(draw) && width >= 0.0 && height >= 0.0
    ensures ParticleOk(NewParticle(draw, k, width, height), width, height)
  {
    NewParticleRanges(draw, k, width, height);
  }

  /** `Math.floor(p.opacity * 255)`. */
  function AlphaByte(opacity: real): int {
    (opacity * 255.0).Floor
  }

  /** An opacity in `[lo, hi)` gives an alpha byte between the floors of
      `255 * lo` and `255 * hi`. */
  lemma AlphaByteRange(opacity: real)
    requires 0.2 <= opacity < 0.7
    ensures 51 <= AlphaByte(opacity) <= 178
  {
    var x := opacity * 255.0;
    assert 51.0 <= x < 178.5;
    assert x.Floor as real <= x < x.Floor as real + 1.0;
  }

  /** The fill style of a particle: its colour and then
      `alpha.toString(16).padStart(2, "0")`. */
  function FillStyle(p: AboutParticle): string
    requires 0 <= AlphaByte(p.opacity) < 256
  {
    p.color + HexByte(AlphaByte(p.opacity))
  }

  /** An opacity in `[0.2, 0.7)` gives an alpha byte in `[51, 178]`, so the
      fill style is the colour followed by exactly two hex digits, which
      read back as that byte. */
  lemma FillStyleAlpha(p: AboutParticle)
    requires 0.2 <= p.opacity < 0.7
    ensures 51 <= AlphaByte(p.opacity) <= 178
    ensures |FillStyle(p)| == |p.color| + 2
    ensures FillStyle(p)[..|p.color|] == p.color
    ensures IsDigitString(FillStyle(p)[|p.color|..], 16)
    ensures ParseRadix(FillStyle(p)[|p.color|..], 16) == AlphaByte(p.opacity)
  {
    AlphaByteRange(p.opacity);
    var n := AlphaByte(p.opacity);
    HexByteRoundTrip(n);
    AppendParts(p.color, HexByte(n));
  }

  /** One frame for one particle: the same bounce as the skills
      background; size, opacity and colour stay. */
  function StepParticle(p: AboutParticle, width: real, height: real): (q: AboutParticle)
    ensures q.size == p.size && q.opacity == p.opacity && q.color == p.color
  {
    AboutParticle(Bounce(p.x, width), Bounce(p.y, height), p.size, p.opacity, p.color)
  }

  // ---------------------------------------------------------------------
  // Dot grid

  /** `gridSize`: 25 below 768 pixels of window width, 40 from there. */
  function GridSize(innerWidth: int): (g: nat)
    ensures g == 25 <==> innerWidth < 768
    ensures g == 40 <==> innerWidth >= 768
  {
    if innerWidth < 768 then 25 else 40
  }

  /** The dots the nested loops
      `for (x = 0; x < width; x += g) for (y = 0; y < height; y += g)`
      draw. */
  method GridDots(width: nat, height: nat, g: nat) returns (dots: seq<Dot>)
    requires g > 0
    ensures dots == GridFrom(0, 0, width, height, g)
  {
    dots := [];
    var x: nat := 0;
    while x < width
      invariant dots + GridFrom(x, 0, width, height, g) == GridFrom(0, 0, width, height, g)
      decreases width - x
    {
      NextColumn(dots, x, 0, width, height, g);
      var y: nat := 0;
      while y < height
        invariant dots + ColumnFrom(x, y, height, g) + GridFrom(x + g, 0, width, height, g) == GridFrom(0, 0, width, height, g)
        decreases height - y
      {
        NextRow(dots, x, y, height, g);
        dots := dots + [Dot(x, y)];
        y := y + g;
      }
      ColumnDone(dots, x, y, 0, width, height, g);
      x := x + g;
    }
  }

  /** The grid is exactly the multiples of `g` inside the canvas, each
      once, column by column. */
  lemma GridIsMultiples(width: nat, height: nat, g: nat)
    requires g > 0
    ensures forall X: nat, Y: nat :: Dot(X, Y) in GridFrom(0, 0, width, height, g) <==>
      X < width && Y < height && X % g == 0 && Y % g == 0
    ensures ColumnMajor(GridFrom(0, 0, width, height, g))
  {
    GridFacts(0, 0, width, height, g);
  }

  // ---------------------------------------------------------------------
  // The particle field

  /** The particles of the about background and the canvas they move on. */
  class ParticleField {
    var particles: seq<AboutParticle>
    var width: real
    var height: real

    /** Every particle is inside the canvas or within one step of it,
        heading back in, and keeps the opacity it was created with. */
    predicate Valid()
      reads this
    {
      && width >= 0.0 && height >= 0.0
      && forall k :: 0 <= k < |particles| ==> ParticleOk(particles[k], width, height)
    }

    constructor ()
      ensures Valid() && particles == [] && width == 0.0 && height == 0.0
    {
      particles := [];
      width := 0.0;
      height := 0.0;
    }

    /** `initParticles`: empty the array, then push `particleCount` new
        particles. */
    method InitParticles(draw: nat -> real)
      requires Valid() && Draws(draw)
      modifies this
      ensures Valid() && width == old(width) && height == old(height)
      ensures |particles| == ParticleCount
      ensures forall k :: 0 <= k < ParticleCount ==> particles[k] == NewParticle(draw, k, width, height)
    {
      var w, h := width, height;
      var ps: seq<AboutParticle> := [];
      for i := 0 to ParticleCount
        invariant |ps| == i && width == w && height == h
        invariant forall k :: 0 <= k < i ==> ps[k] == NewParticle(draw, k, w, h) && ParticleOk(ps[k], w, h)
      {
        NewParticleOk(draw, i, w, h);
        ps := ps + [NewParticle(draw, i, w, h)];
      }
      particles := ps;
    }

    /** `resizeCanvas`: take the container's size, then rebuild. */
    method ResizeCanvas(newWidth: real, newHeight: real, draw: nat -> real)
      requires Valid() && newWidth >= 0.0 && newHeight >= 0.0 && Draws(draw)
      modifies this
      ensures Valid() && width == newWidth && height == newHeight
      ensures |particles| == ParticleCount
      ensures forall k :: 0 <= k < ParticleCount ==> particles[k] == NewParticle(draw, k, width, height)
    {
      width, height := newWidth, newHeight;
      particles := [];
      InitParticles(draw);
    }

    /** The update half of `animateParticles`: each particle's fill style
        is taken, then the particle takes one bounce step. */
    method StepParticles() returns (styles: seq<string>)
      requires Valid()
      modifies this
      ensures Valid() && width == old(width) && height == old(height)
      ensures |particles| == |old(particles)| == |styles|
      ensures forall k :: 0 <= k < |particles| ==> particles[k] == StepParticle(old(particles)[k], width, height)
      ensures forall k :: 0 <= k < |styles| ==> 0 <= AlphaByte(old(particles)[k].opacity) < 256 && styles[k] == FillStyle(old(particles)[k])
    {
      styles := [];
      for i := 0 to |particles|
        invariant width == old(width) && height == old(height) && |particles| == |old(particles)| && |styles| == i
        invariant forall k :: 0 <= k < i ==> particles[k] == StepParticle(old(particles)[k], width, height)
        invariant forall k :: i <= k < |particles| ==> particles[k] == old(particles)[k]
        invariant forall k :: 0 <= k < i ==> 0 <= AlphaByte(old(particles)[k].opacity) < 256 && styles[k] == FillStyle(old(particles)[k])
        invariant Valid()
      {
        var p := particles[i];
        AlphaByteRange(p.opacity);
        styles := styles + [FillStyle(p)];
        BounceKeepsNear(p.x, width);
        BounceKeepsNear(p.y, height);
        particles := particles[i := StepParticle(p, width, height)];
      }
    }

    /** One frame of `animateParticles`: the grid, the lines between close
        particles at their current positions, then the step. */
    method AnimateParticles(innerWidth: int, canvasWidth: nat, canvasHeight: nat, distance: (AboutParticle, AboutParticle) -> real)
      returns (dots: seq<Dot>, lines: seq<Connection>, styles: seq<string>)
      requires Valid() && canvasWidth as real == width && canvasHeight as real == height
      modifies this
      ensures Valid() && width == old(width) && height == old(height)
      ensures dots == GridFrom(0, 0, canvasWidth, canvasHeight, GridSize(innerWidth))
      ensures forall k :: 0 <= k < |lines| ==>
        && lines[k].i < lines[k].j < |old(particles)|
        && distance(old(particles)[lines[k].i], old(particles)[lines[k].j]) < LineDistance
        && lines[k].alpha == LineAlpha(LineAlphaBase, LineDistance, distance(old(particles)[lines[k].i], old(particles)[lines[k].j]))
      ensures forall i: nat, j: nat :: i < j < |old(particles)| && distance(old(particles)[i], old(particles)[j]) < LineDistance ==>
        Connection(i, j, LineAlpha(LineAlphaBase, LineDistance, distance(old(particles)[i], old(particles)[j]))) in lines
      ensures |particles| == |old(particles)|
      ensures forall k :: 0 <= k < |particles| ==> particles[k] == StepParticle(old(particles)[k], width, height)
    {
      dots := GridDots(canvasWidth, canvasHeight, GridSize(innerWidth));
      var ps := particles;
      var d := (i: nat, j: nat) => if i < |ps| && j < |ps| then distance(ps[i], ps[j]) else 0.0;
      lines := ConnectionLines(|ps|, d, LineDistance, LineAlphaBase);
      assert forall i: nat, j: nat :: i < j < |ps| ==> d(i, j) == distance(ps[i], ps[j]);
      styles := StepParticles();
    }
  }

  // ---------------------------------------------------------------------
  // Tabs

  /** A tab: id, label (as `title`, `label` being a word Dafny reserves),
      icon and gradient. */
  datatype Tab = Tab(id: string, title: string, icon: Icon, color: string)

  const AboutTab := Tab("about", "About", User, "from-blue-500 to-cyan-400")
  const ExperienceTab := Tab("experience", "Experience", Briefcase, "from-purple-500 to-blue-500")
  const EducationTab := Tab("education", "Education", GraduationCap, "from-amber-500 to-orange-500")
  const InterestsTab := Tab("interests", "Interests", Lightbulb, "from-emerald-500 to-teal-500")

  /** `tabs`, in order. */
  const tabs: seq<Tab> := [AboutTab, ExperienceTab, EducationTab, InterestsTab]

  /** The keys of `tabContent`. */
  const TabContentKeys: set<string> := {"about", "experience", "education", "interests"}

  function HasTabId(id: string): Tab -> bool {
    (t: Tab) => t.id == id
  }

  /** `activeTabInfo`: `tabs.find((tab) => tab.id === activeTab)`. */
  function ActiveTabInfo(activeTab: string): (r: Option<Tab>)
    ensures r.None? <==> forall k :: 0 <= k < |tabs| ==> tabs[k].id != activeTab
    ensures r.Some? ==> r.value in tabs && r.value.id == activeTab
  {
    Find(tabs, HasTabId(activeTab))
  }

  /** The ids of the tabs are distinct, so each id finds its own tab, and
      each has content in `tabContent`. */
  lemma TabLookup(k: int)
    requires 0 <= k < |tabs|
    ensures ActiveTabInfo(tabs[k].id) == Some(tabs[k])
    ensures tabs[k].id in TabContentKeys
  {
    FindAt(tabs, HasTabId(tabs[k].id), k);
  }

  /** `activeTabInfo?.label || "Menu"`. */
  function MenuLabel(activeTab: string): (r: string)
    ensures ActiveTabInfo(activeTab).None? ==> r == "Menu"
    ensures ActiveTabInfo(activeTab).Some? ==> r == ActiveTabInfo(activeTab).value.title
  {
    match ActiveTabInfo(activeTab)
    case Some(t) => if t.title != "" then t.title else "Menu"
    case None => "Menu"
  }

  /** The tab state: `activeTab` and `mobileMenuOpen`. */
  class TabState {
    var activeTab: string
    var mobileMenuOpen: bool

    /** The active tab is one of the tabs. */
    predicate Valid()
      reads this
    {
      exists k :: 0 <= k < |tabs| && tabs[k].id == activeTab
    }

    /** `useState("about")` and `useState(false)`. */
    constructor ()
      ensures Valid() && activeTab == "about" && !mobileMenuOpen
    {
      activeTab := "about";
      mobileMenuOpen := false;
      new;
      assert tabs[0].id == activeTab;
    }

    /** The menu button: `setMobileMenuOpen(!mobileMenuOpen)`. */
    method ToggleMobileMenu()
      requires Valid()
      modifies this
      ensures Valid() && mobileMenuOpen == !old(mobileMenuOpen) && activeTab == old(activeTab)
    {
      mobileMenuOpen := !mobileMenuOpen;
    }

    /** A tab button of the mobile menu: select the tab and close the menu. */
    method SelectFromMenu(k: int)
      requires Valid() && 0 <= k < |tabs|
      modifies this
      ensures Valid() && activeTab == tabs[k].id && !mobileMenuOpen
    {
      activeTab := tabs[k].id;
      mobileMenuOpen := false;
    }

    /** A tab button of the desktop bar: select the tab. */
    method Select(k: int)
      requires Valid() && 0 <= k < |tabs|
      modifies this
      ensures Valid() && activeTab == tabs[k].id && mobileMenuOpen == old(mobileMenuOpen)
    {
      activeTab := tabs[k].id;
    }
  }

  /** Whatever tab is active, the menu shows its label, never "Menu", and
      the content shown is the one for that tab. */
  lemma ActiveTabShown(activeTab: string)
    requires exists k :: 0 <= k < |tabs| && tabs[k].id == activeTab
    ensures ActiveTabInfo(activeTab).Some? && MenuLabel(activeTab) != "Menu"
    ensures activeTab in TabContentKeys
  {
    var k :| 0 <= k < |tabs| && tabs[k].id == activeTab;
    TabLookup(k);
  }
}
