/** The skills panel of the about section
    (src/app/components/AboutContent.tsx): the category filter, the list of
    skills it shows, the level dot of a skill tag and the top expertise. */
module AboutContent {
  import opened Wrappers
  import opened Seqs
  import opened Text
  import opened Bands
  import opened Categories
  import opened SkillModel
  import opened Skills

  // ---------------------------------------------------------------------
  // The filtered list

  /** `activeCategory ? getSkillsByCategory(activeCategory) : skills`: no
      category, or the empty id (which is falsy), shows the whole table;
      any other id shows that category's skills in table order. */
  function FilteredSkills(activeCategory: Option<string>): (r: seq<Skill>)
    ensures activeCategory.None? || activeCategory == Some("") ==> r == skills
    ensures activeCategory.Some? && activeCategory.value != "" ==>
      forall s :: s in r <==> s in skills && s.category.id == activeCategory.value
    ensures forall s :: s in r ==> s in skills
  {
    match activeCategory
    case Some(id) => if id != "" then GetSkillsByCategory(id) else skills
    case None => skills
  }

  // ---------------------------------------------------------------------
  // The filter buttons

  /** The ids the filter row offers, besides "All Skills":
      `["frontend", "backend", "programming", "database", "devops"]`. */
  predicate OfferedId(id: string) {
    id == "frontend" || id == "backend" || id == "programming" || id == "database" || id == "devops"
  }

  /** `allCategories.filter((cat) => [...].includes(cat.id))`: the
      categories with an offered id, in category-table order. */
  function FilterButtons(): (r: seq<Category>)
    ensures forall c :: c in r <==> c in categories && OfferedId(c.id)
    ensures IsSubseq(r, categories)
  {
    FilterIsSubseq(GetAllCategories(), WithId(OfferedId));
    Filter(GetAllCategories(), WithId(OfferedId))
  }

  /** The row shows Frontend, Backend, Database, DevOps and Programming
      Languages, in that order: the order of the category table, not the
      order of the id list. */
  lemma SiteFilterButtons()
    ensures FilterButtons() == [Frontend, Backend, DatabaseCategory, DevOps, Programming]
  {
    FilterById(OfferedId);
  }

  /** `category.title.split(" ")[0]`: the first word of the title. */
  function ButtonLabel(c: Category): (r: string)
    ensures |r| <= |c.title| && r == c.title[..|r|] && ' ' !in r
    ensures |r| < |c.title| ==> c.title[|r|] == ' '
  {
    SplitHead(c.title, ' ')
  }

  /** Every title of the row but "Programming Languages" is one word, so
      that button alone shows a shortened title. */
  lemma SiteButtonLabels()
    ensures ButtonLabel(Frontend) == "Frontend"
    ensures ButtonLabel(Backend) == "Backend"
    ensures ButtonLabel(DatabaseCategory) == "Database"
    ensures ButtonLabel(DevOps) == "DevOps"
    ensures ButtonLabel(Programming) == "Programming"
  {
    TitleFirstWords();
  }

  /** The ids of the row are distinct. */
  lemma FilterButtonIdsDistinct()
    ensures IdsDistinct(FilterButtons())
  {
    CategoryIdsDistinct();
    FilterIdsDistinct(categories, WithId(OfferedId));
  }

  /** Filtering keeps ids distinct. */
  lemma {:induction false} FilterIdsDistinct(cs: seq<Category>, p: Category -> bool)
    requires IdsDistinct(cs)
    ensures IdsDistinct(Filter(cs, p))
  {
    if cs != [] {
      FilterIdsDistinct(cs[1..], p);
      if p(cs[0]) {
        HeadIdUnique(cs);
        ConsIdsDistinct(cs[0], Filter(cs[1..], p));
      }
    }
  }

  /** No later category shares the first one's id. */
  lemma HeadIdUnique(cs: seq<Category>)
    requires IdsDistinct(cs) && cs != []
    ensures forall c :: c in cs[1..] ==> c.id != cs[0].id
  {
    forall c | c in cs[1..]
      ensures c.id != cs[0].id
    {
      var i :| 0 <= i < |cs[1..]| && cs[1..][i] == c;
      assert cs[i + 1] == c;
    }
  }

  /** A category whose id no other one has keeps the ids distinct. */
  lemma ConsIdsDistinct(c: Category, rest: seq<Category>)
    requires IdsDistinct(rest) && forall d :: d in rest ==> d.id != c.id
    ensures IdsDistinct([c] + rest)
  {
    var r := [c] + rest;
    assert forall j :: 1 <= j < |r| ==> r[j] == rest[j - 1];
  }

  /** Each offered id is the id of a category of the table. */
  lemma OfferedIsCategory(id: string)
    requires OfferedId(id)
    ensures exists c :: c in categories && c.id == id
  {
    if id == "frontend" { assert categories[0].id == id; }
    else if id == "backend" { assert categories[1].id == id; }
    else if id == "programming" { assert categories[7].id == id; }
    else if id == "database" { assert categories[4].id == id; }
    else { assert categories[5].id == id; }
  }

  /** Each offered id names a button of the row. */
  lemma OfferedHasButton(id: string)
    requires OfferedId(id)
    ensures exists c :: c in FilterButtons() && c.id == id
  {
    OfferedIsCategory(id);
  }

  /** Each offered id leads to a list with at least one skill. */
  lemma NoEmptyFilter(id: string)
    requires OfferedId(id)
    ensures FilteredSkills(Some(id)) != []
  {
    var s :=
      if id == "frontend" then React
      else if id == "backend" then NodeJs
      else if id == "programming" then JavaScript
      else if id == "database" then MySql
      else Git;
    assert s in skills && s.category.id == id;
    assert s in FilteredSkills(Some(id));
  }

  /** A button of the row has an offered id. */
  lemma ButtonOffered(c: Category)
    requires c in FilterButtons()
    ensures OfferedId(c.id)
  {
  }

  /** An offered id shows the data layer's skills of that category, and
      at least one. */
  lemma OfferedShows(id: string)
    requires OfferedId(id)
    ensures FilteredSkills(Some(id)) == GetSkillsByCategory(id) != []
  {
    NoEmptyFilter(id);
  }

  /** A button of the row shows the data layer's skills of its category,
      and at least one. */
  lemma ButtonShows(c: Category)
    requires c in FilterButtons()
    ensures OfferedId(c.id)
    ensures FilteredSkills(Some(c.id)) == GetSkillsByCategory(c.id) != []
  {
    ButtonOffered(c);
    OfferedShows(c.id);
  }

  /** An offered id shows that category's skills, and at least one. */
  lemma OfferedFilter(id: string)
    requires OfferedId(id)
    ensures forall s :: s in FilteredSkills(Some(id)) <==> s in skills && s.category.id == id
    ensures FilteredSkills(Some(id)) != []
  {
    NoEmptyFilter(id);
  }

  /** The "All Skills" button is highlighted when `activeCategory === null`,
      a category button when `activeCategory === category.id`. */
  predicate AllHighlighted(activeCategory: Option<string>) {
    activeCategory.None?
  }

  predicate ButtonHighlighted(activeCategory: Option<string>, c: Category) {
    activeCategory == Some(c.id)
  }

  /** When the active category is none or one the row offers, exactly one
      button of the row is highlighted. */
  lemma OneButtonHighlighted(activeCategory: Option<string>)
    requires activeCategory.None? || OfferedId(activeCategory.value)
    ensures AllHighlighted(activeCategory) ==>
      forall k :: 0 <= k < |FilterButtons()| ==> !ButtonHighlighted(activeCategory, FilterButtons()[k])
    ensures !AllHighlighted(activeCategory) ==>
      exists k :: 0 <= k < |FilterButtons()| && ButtonHighlighted(activeCategory, FilterButtons()[k])
    ensures forall k, m ::
      0 <= k < |FilterButtons()| && 0 <= m < |FilterButtons()| &&
      ButtonHighlighted(activeCategory, FilterButtons()[k]) &&
      ButtonHighlighted(activeCategory, FilterButtons()[m])
      ==> k == m
  {
    FilterButtonIdsDistinct();
    if activeCategory.Some? {
      OfferedHasButton(activeCategory.value);
    }
    OneHighlightedIn(FilterButtons(), activeCategory);
  }

  /** The same for any row with distinct ids that has a button for the
      active category. */
  lemma OneHighlightedIn(bs: seq<Category>, activeCategory: Option<string>)
    requires IdsDistinct(bs)
    requires activeCategory.Some? ==> exists c :: c in bs && c.id == activeCategory.value
    ensures AllHighlighted(activeCategory) ==>
      forall k :: 0 <= k < |bs| ==> !ButtonHighlighted(activeCategory, bs[k])
    ensures !AllHighlighted(activeCategory) ==>
      exists k :: 0 <= k < |bs| && ButtonHighlighted(activeCategory, bs[k])
    ensures forall k, m ::
      0 <= k < |bs| && 0 <= m < |bs| &&
      ButtonHighlighted(activeCategory, bs[k]) && ButtonHighlighted(activeCategory, bs[m])
      ==> k == m
  {
    if activeCategory.Some? {
      var c :| c in bs && c.id == activeCategory.value;
      var k :| 0 <= k < |bs| && bs[k] == c;
      assert ButtonHighlighted(activeCategory, bs[k]);
    }
  }

  /** The state behind the panel: the active category, if any. */
  class SkillFilter {
    var activeCategory: Option<string>

    /** Only the buttons of the panel set the category. */
    predicate Valid()
      reads this
    {
      activeCategory.None? || OfferedId(activeCategory.value)
    }

    /** The skills the panel lists. */
    function Shown(): (r: seq<Skill>)
      reads this
      ensures forall s :: s in r ==> s in skills
    {
      FilteredSkills(activeCategory)
    }

    /** `useState<string | null>(null)`: the panel opens on all skills. */
    constructor ()
      ensures Valid() && activeCategory == None && Shown() == skills
    {
      activeCategory := None;
    }

    /** A category button: `setActiveCategory(category.id)`. The panel then
        lists what `getSkillsByCategory` returns for it, which is never
        empty. */
    method SelectCategory(c: Category)
      requires c in FilterButtons()
      modifies this
      ensures Valid() && activeCategory == Some(c.id)
      ensures Shown() == GetSkillsByCategory(c.id) != []
    {
      ButtonShows(c);
      activeCategory := Some(c.id);
    }

    /** "All Skills" and "View all skills": `setActiveCategory(null)`. */
    method ShowAll()
      modifies this
      ensures Valid() && activeCategory == None && Shown() == skills
    {
      activeCategory := None;
    }
  }

  // ---------------------------------------------------------------------
  // The level dot of a skill tag

  const LevelDotThresholds: seq<int> := [90, 80, 70]
  const LevelDots: seq<string> := ["bg-emerald-400", "bg-green-400", "bg-yellow-400", "bg-orange-400"]

  /** The colour of the small dot beside a skill's name. */
  function LevelDot(level: int): (r: string)
    ensures r in LevelDots
  {
    if level >= 90 then "bg-emerald-400"
    else if level >= 80 then "bg-green-400"
    else if level >= 70 then "bg-yellow-400"
    else "bg-orange-400"
  }

  /** The dot is emerald from 90, green from 80, yellow from 70 and orange
      below: the colour of the band the level falls in. */
  lemma LevelDotIsBand(level: int)
    ensures LevelDot(level) == LevelDots[Band(LevelDotThresholds, level)]
  {
    var t := LevelDotThresholds;
    assert Descending(t);
    if level >= 90 { BandBetween(t, level, 0); }
    else if level >= 80 { BandBetween(t, level, 1); }
    else if level >= 70 { BandBetween(t, level, 2); }
    else { BandBetween(t, level, 3); }
  }

  // ---------------------------------------------------------------------
  // Top expertise

  /** `topSkills.slice(0, 6)` with `topSkills = getTopSkills(5)`, on a
      skills table `ss`. */
  function TopExpertiseOf(ss: seq<Skill>): seq<Skill> {
    Take(TopByLevel(ss, 5), 6)
  }

  /** The panel's top expertise, from the skills table. */
  function TopExpertise(): seq<Skill> {
    TopExpertiseOf(skills)
  }

  /** Slicing a list of at most `n` entries to `n` keeps it whole. */
  lemma TakeAll<T>(s: seq<T>, n: int)
    requires |s| <= n
    ensures Take(s, n) == s
  {
  }

  /** The slice to six never bites: with at least five skills the panel
      shows the five highest-level ones, highest first, and no skill left
      out has a higher level than one shown. */
  lemma TopExpertiseIsTopFive(ss: seq<Skill>)
    requires |ss| >= 5
    ensures TopExpertiseOf(ss) == TopByLevel(ss, 5) && |TopExpertiseOf(ss)| == 5
    ensures forall i, j :: 0 <= i < j < 5 ==> TopExpertiseOf(ss)[i].level >= TopExpertiseOf(ss)[j].level
    ensures forall x, y :: x in TopExpertiseOf(ss) && y in ss && y !in TopExpertiseOf(ss) ==> y.level <= x.level
    ensures multiset(TopExpertiseOf(ss)) <= multiset(ss)
  {
    TakeAll(TopByLevel(ss, 5), 6);
  }

  /** On the site's table the panel shows `getTopSkills(5)` whole. */
  lemma SiteTopExpertise()
    ensures TopExpertise() == GetTopSkills(5) && |TopExpertise()| == 5
  {
    TopExpertiseIsTopFive(skills);
  }
}
