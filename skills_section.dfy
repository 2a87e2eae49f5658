/** The skills section (src/app/components/Skills.tsx): the particle field
    behind it, the level badge, the icon and description of a category,
    and the category list built from the grouped skills. */
module SkillsSection {
  import opened Wrappers
  import opened Seqs
  import opened Records
  import opened Icons
  import opened Motion
  import opened Categories
  import opened SkillModel

  // ---------------------------------------------------------------------
  // Particles

  /** A background particle: `x` with `speedX`, `y` with `speedY`, its
      size and opacity. */
  datatype Particle = Particle(x: Axis, y: Axis, size: real, opacity: real)

  /** `particleCount`. */
  const ParticleCount := 70

  /** The connection distance and the alpha of a line at distance 0. */
  const LineDistance := 120.0
  const LineAlphaBase := 0.12

  /** A random draw: a value in `[0, 1)`. */
  predicate IsDraw(d: real) { 0.0 <= d < 1.0 }

  /** Every draw of the sequence `draw` is in `[0, 1)`. */
  ghost predicate Draws(draw: nat -> real) {
    forall n: nat :: IsDraw(draw(n))
  }

  /** The particle pushed by turn `k` of `initParticles`: it uses the draws
      `6k` to `6k + 5`, in the order the object literal reads them (x, y,
      size, speedX, speedY, opacity). */
  function NewParticle(draw: nat -> real, k: nat, width: real, height: real): Particle {
    var b := 6 * k;
    Particle(
      Axis(draw(b) * width, (draw(b + 3) - 0.5) * 0.4),
      Axis(draw(b + 1) * height, (draw(b + 4) - 0.5) * 0.4),
      draw(b + 2) * 2.0 + 0.5,
      draw(b + 5) * 0.5 + 0.3)
  }

  /** With draws in `[0, 1)` a new particle lies in `[0, width) × [0, height)`
      (at 0 on an empty extent), moves by less than 0.2 a frame along each
      axis, has a size in `[0.5, 2.5)` and an opacity in `[0.3, 0.8)`. */
  lemma NewParticleRanges(draw: nat -> real, k: nat, width: real, height: real)
    requires Draws(draw) && width >= 0.0 && height >= 0.0
    ensures var p := NewParticle(draw, k, width, height);
      && 0.0 <= p.x.pos <= width && (width > 0.0 ==> p.x.pos < width)
      && 0.0 <= p.y.pos <= height && (height > 0.0 ==> p.y.pos < height)
      && -0.2 <= p.x.speed < 0.2 && -0.2 <= p.y.speed < 0.2
      && 0.5 <= p.size < 2.5 && 0.3 <= p.opacity < 0.8
  {
    var b := 6 * k;
    assert IsDraw(draw(b)) && IsDraw(draw(b + 1)) && IsDraw(draw(b + 2));
    assert IsDraw(draw(b + 3)) && IsDraw(draw(b + 4)) && IsDraw(draw(b + 5));
    ScaleDraw(draw(b), width);
    ScaleDraw(draw(b + 1), height);
    var p := NewParticle(draw, k, width, height);
    assert p.x.pos == draw(b) * width && p.y.pos == draw(b + 1) * height;
  }

  /** A draw times a non-negative extent lies in `[0, extent]`, and below
      the extent when that is positive. */
  lemma ScaleDraw(d: real, extent: real)
    requires IsDraw(d) && extent >= 0.0
    ensures 0.0 <= d * extent <= extent
    ensures extent > 0.0 ==> d * extent < extent
  {
    assert extent - d * extent == (1.0 - d) * extent;
  }

  /** One frame for one particle: both axes bounce off the canvas edges;
      size and opacity stay. */
  function StepParticle(p: Particle, width: real, height: real): (q: Particle)
    ensures q.size == p.size && q.opacity == p.opacity
  {
    Particle(Bounce(p.x, width), Bounce(p.y, height), p.size, p.opacity)
  }

  /** The particles of the skills background and the canvas they move on. */
  class ParticleField {
    var particles: seq<Particle>
    var width: real
    var height: real

    /** The canvas has a size and every particle is inside it or within one
        step of it heading back in. */
    predicate Valid()
      reads this
    {
      && width >= 0.0 && height >= 0.0
      && forall k :: 0 <= k < |particles| ==> NearRange(particles[k].x, width) && NearRange(particles[k].y, height)
    }

    /** The array before the effect runs: empty, on an empty canvas. */
    constructor ()
      ensures Valid() && particles == [] && width == 0.0 && height == 0.0
    {
      particles := [];
      width := 0.0;
      height := 0.0;
    }

    /** `initParticles`: empty the array, then push `particleCount` new
        particles. */
    method InitParticles(draw: nat -> real)
      requires Valid() && Draws(draw)
      modifies this
      ensures Valid() && width == old(width) && height == old(height)
      ensures |particles| == ParticleCount
      ensures forall k :: 0 <= k < ParticleCount ==> particles[k] == NewParticle(draw, k, width, height)
    {
      particles := [];
      for i := 0 to ParticleCount
        invariant width == old(width) && height == old(height)
        invariant |particles| == i
        invariant forall k :: 0 <= k < i ==> particles[k] == NewParticle(draw, k, width, height)
        invariant Valid()
      {
        var p := NewParticle(draw, i, width, height);
        NewParticleRanges(draw, i, width, height);
        particles := particles + [p];
      }
    }

    /** `resizeCanvas`: take the container's size, then rebuild the
        particles for it. */
    method ResizeCanvas(newWidth: real, newHeight: real, draw: nat -> real)
      requires Valid() && newWidth >= 0.0 && newHeight >= 0.0 && Draws(draw)
      modifies this
      ensures Valid() && width == newWidth && height == newHeight
      ensures |particles| == ParticleCount
      ensures forall k :: 0 <= k < ParticleCount ==> particles[k] == NewParticle(draw, k, width, height)
    {
      width, height := newWidth, newHeight;
      particles := [];
      InitParticles(draw);
    }

    /** The update half of `animateParticles`: every particle takes one
        bounce step, in array order. */
    method StepParticles()
      requires Valid()
      modifies this
      ensures Valid() && width == old(width) && height == old(height)
      ensures |particles| == |old(particles)|
      ensures forall k :: 0 <= k < |particles| ==> particles[k] == StepParticle(old(particles)[k], width, height)
    {
      for i := 0 to |particles|
        invariant width == old(width) && height == old(height) && |particles| == |old(particles)|
        invariant forall k :: 0 <= k < i ==> particles[k] == StepParticle(old(particles)[k], width, height)
        invariant forall k :: i <= k < |particles| ==> particles[k] == old(particles)[k]
        invariant Valid()
      {
        var p := particles[i];
        BounceKeepsNear(p.x, width);
        BounceKeepsNear(p.y, height);
        particles := particles[i := StepParticle(p, width, height)];
      }
    }

    /** One frame of `animateParticles`: the lines between close particles,
        at their current positions, then the step. `distance` stands for
        the Euclidean distance of two particles. */
    method AnimateParticles(distance: (Particle, Particle) -> real) returns (lines: seq<Connection>)
      requires Valid()
      modifies this
      ensures Valid() && width == old(width) && height == old(height)
      ensures |particles| == |old(particles)|
      ensures forall k :: 0 <= k < |particles| ==> particles[k] == StepParticle(old(particles)[k], width, height)
      ensures forall k :: 0 <= k < |lines| ==>
        && lines[k].i < lines[k].j < |particles|
        && distance(old(particles)[lines[k].i], old(particles)[lines[k].j]) < LineDistance
        && lines[k].alpha == LineAlpha(LineAlphaBase, LineDistance, distance(old(particles)[lines[k].i], old(particles)[lines[k].j]))
      ensures forall i: nat, j: nat :: i < j < |particles| && distance(old(particles)[i], old(particles)[j]) < LineDistance ==>
        Connection(i, j, LineAlpha(LineAlphaBase, LineDistance, distance(old(particles)[i], old(particles)[j]))) in lines
    {
      var ps := particles;
      var d := PairDistance(ps, distance);
      lines := ConnectionLines(|ps|, d, LineDistance, LineAlphaBase);
      assert forall i: nat, j: nat :: i < j < |ps| ==> d(i, j) == distance(ps[i], ps[j]);
      StepParticles();
    }
  }

  /** The distance between particles `i` and `j` of `ps`. */
  function PairDistance(ps: seq<Particle>, distance: (Particle, Particle) -> real): (nat, nat) -> real {
    (i: nat, j: nat) => if i < |ps| && j < |ps| then distance(ps[i], ps[j]) else 0.0
  }

  /** A line of the skills background is fainter than 0.12 and visible. */
  lemma SkillsLineAlpha(distance: real)
    requires 0.0 <= distance < LineDistance
    ensures 0.0 < LineAlpha(LineAlphaBase, LineDistance, distance) <= LineAlphaBase
  {
  }

  // ---------------------------------------------------------------------
  // Level badge

  /** What `getSkillLevelText` returns. */
  datatype LevelBadge = LevelBadge(text: string, icon: Icon, color: string, bgColor: string,
                                   borderColor: string, gradient: string)

  /** `getSkillLevelText`: Expert from 90, Advanced from 75, Proficient
      from 60, Intermediate below. */
  function SkillLevelText(level: int): (b: LevelBadge)
    ensures b.text == "Expert" <==> level >= 90
    ensures b.text == "Advanced" <==> 75 <= level < 90
    ensures b.text == "Proficient" <==> 60 <= level < 75
    ensures b.text == "Intermediate" <==> level < 60
  {
    if level >= 90 then
      LevelBadge("Expert", Award, "text-amber-300", "bg-amber-500/10", "border-amber-500/20", "from-amber-400 to-amber-600")
    else if level >= 75 then
      LevelBadge("Advanced", Star, "text-blue-300", "bg-blue-500/10", "border-blue-500/20", "from-blue-400 to-blue-600")
    else if level >= 60 then
      LevelBadge("Proficient", Zap, "text-teal-300", "bg-teal-500/10", "border-teal-500/20", "from-teal-400 to-teal-600")
    else
      LevelBadge("Intermediate", Code, "text-purple-300", "bg-purple-500/10", "border-purple-500/20", "from-purple-400 to-purple-600")
  }

  /** The rank of a badge text, "Intermediate" lowest. */
  function TextRank(text: string): nat {
    if text == "Expert" then 3 else if text == "Advanced" then 2 else if text == "Proficient" then 1 else 0
  }

  /** A higher level never gets a lower badge, and each badge text has
      its own icon. */
  lemma SkillLevelTextMonotone(a: int, b: int)
    requires a <= b
    ensures TextRank(SkillLevelText(a).text) <= TextRank(SkillLevelText(b).text)
    ensures SkillLevelText(a).text != SkillLevelText(b).text ==> SkillLevelText(a).icon != SkillLevelText(b).icon
  {
  }

  // ---------------------------------------------------------------------
  // Category icon and description

  /** `iconMap` of `getCategoryIcon`. */
  const IconMap: map<string, Icon> := map[
    "programming" := Terminal, "frontend" := Layout, "backend" := Server,
    "database" := Database, "mobile" := Smartphone, "devops" := GitBranch]

  /** `getCategoryIcon`: the mapped icon, or `Code`. */
  function CategoryIcon(categoryId: string): (icon: Icon)
    ensures categoryId in IconMap ==> icon == IconMap[categoryId]
    ensures categoryId !in IconMap ==> icon == Code
  {
    if categoryId in IconMap then IconMap[categoryId] else Code
  }

  /** `descriptions` of `formatCategoryDescription`. */
  const Descriptions: map<string, string> := map[
    "programming" := "Writing efficient and maintainable code across multiple paradigms.",
    "frontend" := "Crafting responsive and interactive user interfaces with modern web technologies.",
    "backend" := "Building scalable and efficient server-side applications and APIs.",
    "database" := "Managing and optimizing data storage and retrieval systems.",
    "mobile" := "Developing cross-platform mobile applications for various devices.",
    "devops" := "Implementing development operations practices for efficient software delivery."]

  /** `formatCategoryDescription`: the mapped text, or "" (an empty mapped
      text would give "" either way). */
  function CategoryDescription(categoryId: string): (text: string)
    ensures categoryId in Descriptions ==> text == Descriptions[categoryId]
    ensures categoryId !in Descriptions ==> text == ""
  {
    if categoryId in Descriptions then Descriptions[categoryId] else ""
  }

  /** The two maps name the same six categories, the ones that have
      skills; only an unknown id gets `Code` and an empty text, and a
      known one never does. */
  lemma CategoryFallbacks(categoryId: string)
    ensures categoryId in IconMap <==> categoryId in Descriptions
    ensures CategoryIcon(categoryId) == Code <==> categoryId !in IconMap
    ensures CategoryDescription(categoryId) == "" <==> categoryId !in Descriptions
  {
  }

  // ---------------------------------------------------------------------
  // Category list

  /** An entry of `skillCategories`. The sample project names are constant
      display text, left out. */
  datatype SkillCategory = SkillCategory(id: string, title: string, icon: Icon, description: string, skills: seq<Skill>)

  /** One `[categoryId, { category, skills }]` entry, formatted. */
  function FormatEntry(entry: (string, Group)): SkillCategory {
    SkillCategory(entry.0, entry.1.category.title, CategoryIcon(entry.0), CategoryDescription(entry.0), entry.1.skills)
  }

  /** `Object.entries(grouped).map(...)`: one formatted entry per property,
      in property order. */
  function SkillCategories(grouped: Record<Group>): (r: seq<SkillCategory>)
    ensures |r| == |grouped|
    ensures forall i :: 0 <= i < |r| ==> r[i] == FormatEntry(grouped[i])
  {
    seq(|grouped|, i requires 0 <= i < |grouped| => FormatEntry(grouped[i]))
  }

  /** Each property of the grouped object holds a category with that id
      and exactly that category's skills, of which there is at least one. */
  lemma GroupedEntry(ss: seq<Skill>, cs: seq<Category>, i: int)
    requires IdsDistinct(cs) && 0 <= i < |GroupedAfter(ss, cs)|
    ensures GroupedAfter(ss, cs)[i].1.category.id == GroupedAfter(ss, cs)[i].0
    ensures GroupedAfter(ss, cs)[i].1.skills == Filter(ss, InCategory(GroupedAfter(ss, cs)[i].0))
    ensures GroupedAfter(ss, cs)[i].1.skills != []
  {
    var grouped := GroupedAfter(ss, cs);
    GroupedKeysFromCategories(ss, cs);
    GroupedKeys(ss, cs);
    var key := grouped[i].0;
    assert Keys(grouped)[i] == key;
    assert key in Keys(grouped);
    var k :| 0 <= k < |Ids(cs)| && Ids(cs)[k] == key;
    GroupedValues(ss, cs, k);
    GetAt(grouped, i);
  }

  /** The formatted list follows the grouped object: one entry per
      property, with that property's id, its category's title and exactly
      the skills of that category, never none. */
  lemma SkillCategoriesOfGroups(ss: seq<Skill>, cs: seq<Category>)
    requires IdsDistinct(cs)
    ensures var r := SkillCategories(GroupedAfter(ss, cs));
      && |r| == |Keys(GroupedAfter(ss, cs))|
      && forall i :: 0 <= i < |r| ==>
        && r[i].id == Keys(GroupedAfter(ss, cs))[i]
        && r[i].skills == Filter(ss, InCategory(r[i].id)) && r[i].skills != []
        && r[i].title == GroupedAfter(ss, cs)[i].1.category.title
  {
    var grouped := GroupedAfter(ss, cs);
    forall i | 0 <= i < |grouped|
      ensures Keys(grouped)[i] == grouped[i].0
      ensures grouped[i].1.skills == Filter(ss, InCategory(grouped[i].0)) && grouped[i].1.skills != []
    {
      GroupedEntry(ss, cs, i);
    }
  }

  /** With the tables of the site the grouped object has the properties
      frontend, backend, mobile, database, devops and programming
      (`GroupedSkillsKeys`); the list then has six entries in that order,
      each with its own icon and a description. */
  lemma SiteSkillCategories(grouped: Record<Group>)
    requires Keys(grouped) == ["frontend", "backend", "mobile", "database", "devops", "programming"]
    ensures |SkillCategories(grouped)| == 6
    ensures forall i :: 0 <= i < 6 ==> SkillCategories(grouped)[i].id == Keys(grouped)[i]
    ensures forall i :: 0 <= i < 6 ==> SkillCategories(grouped)[i].icon != Code && SkillCategories(grouped)[i].description != ""
  {
    var r := SkillCategories(grouped);
    forall i | 0 <= i < 6
      ensures r[i].id == Keys(grouped)[i] && r[i].id in IconMap && r[i].id in Descriptions
    {
      assert Keys(grouped)[i] == grouped[i].0;
    }
  }
}
