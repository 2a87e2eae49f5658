/** The project record and the queries over a project list that the data
    module and the projects section share (src/app/types/projects.ts,
    src/app/data/projects.ts and the filters of
    src/app/components/Projects.tsx, stated for any list). */
module ProjectModel {
  import opened Wrappers
  import opened Seqs
  import opened Text
  import opened Categories
  import opened SkillModel

  /** A project. `github`, `live` and `skills` are optional in the source. */
  datatype Project = Project(
    id: string, title: string, description: string, image: string, category: Category,
    github: Option<string>, live: Option<string>, skills: Option<seq<Skill>>)

  /** `project.skills?.some((skill) => skill.id === skillId)`: a project
      without a skills list never matches. */
  predicate UsesSkill(p: Project, skillId: string) {
    p.skills.Some? && exists i :: 0 <= i < |p.skills.value| && p.skills.value[i].id == skillId
  }

  /** The test `project.category.id === categoryId`. */
  function InProjectCategory(categoryId: string): Project -> bool {
    (p: Project) => p.category.id == categoryId
  }

  function WithSkill(skillId: string): Project -> bool {
    (p: Project) => UsesSkill(p, skillId)
  }

  // ---------------------------------------------------------------------
  // Queries of the data module

  /** `projects.find((project) => project.id === id)`: the first project
      with this id, if any. */
  function ProjectById(ps: seq<Project>, id: string): (r: Option<Project>)
    ensures r.Some? ==> r.value in ps && r.value.id == id
    ensures r.None? <==> forall i :: 0 <= i < |ps| ==> ps[i].id != id
  {
    Find(ps, (p: Project) => p.id == id)
  }

  /** `projects.filter((project) => project.category.id === categoryId)`:
      the projects of one category, in list order. */
  function ProjectsByCategory(ps: seq<Project>, categoryId: string): (r: seq<Project>)
    ensures forall p :: p in r <==> p in ps && p.category.id == categoryId
    ensures IsSubseq(r, ps)
  {
    FilterIsSubseq(ps, InProjectCategory(categoryId));
    Filter(ps, InProjectCategory(categoryId))
  }

  /** `projects.filter((project) => project.skills?.some(...))`: the
      projects whose skills list names the skill, in list order; a project
      without a list is never among them. */
  function ProjectsBySkill(ps: seq<Project>, skillId: string): (r: seq<Project>)
    ensures forall p :: p in r <==> p in ps && UsesSkill(p, skillId)
    ensures forall p :: p in r ==> p.skills.Some?
    ensures IsSubseq(r, ps)
  {
    FilterIsSubseq(ps, WithSkill(skillId));
    Filter(ps, WithSkill(skillId))
  }

  predicate ProjectIdsDistinct(ps: seq<Project>) {
    forall i, j :: 0 <= i < j < |ps| ==> ps[i].id != ps[j].id
  }

  /** With distinct ids, looking up the id of any project finds that
      project. */
  lemma ProjectByIdRoundTrip(ps: seq<Project>, k: int)
    requires ProjectIdsDistinct(ps) && 0 <= k < |ps|
    ensures ProjectById(ps, ps[k].id) == Some(ps[k])
  {
    FindAt(ps, (p: Project) => p.id == ps[k].id, k);
  }

  // ---------------------------------------------------------------------
  // Category buttons

  /** `projects.map((project) => project.category.title)`. */
  function CategoryTitles(ps: seq<Project>): (r: seq<string>)
    ensures |r| == |ps| && forall i :: 0 <= i < |ps| ==> r[i] == ps[i].category.title
  {
    seq(|ps|, i requires 0 <= i < |ps| => ps[i].category.title)
  }

  /** `["All", ...new Set(projects.map((project) => project.category.title))]`:
      "All", then every category title of the projects once, in the order
      the titles first occur. */
  function ProjectCategories(ps: seq<Project>): (r: seq<string>)
    ensures |r| >= 1 && r[0] == "All"
    ensures Distinct(r[1..])
    ensures forall t :: t in r[1..] <==> exists i :: 0 <= i < |ps| && ps[i].category.title == t
    ensures forall i, j :: 1 <= i < j < |r| ==>
      r[i] in CategoryTitles(ps) && r[j] in CategoryTitles(ps) && IndexOf(CategoryTitles(ps), r[i]) < IndexOf(CategoryTitles(ps), r[j])
  {
    var titles := CategoryTitles(ps);
    var d := Dedup(titles);
    forall i, j | 0 <= i < j < |d| ensures IndexOf(titles, d[i]) < IndexOf(titles, d[j]) {
      DedupFirstOccurrence(titles, i, j);
    }
    var r := ["All"] + d;
    assert r[1..] == d;
    r
  }

  /** `categories.filter((category) => category.title === "All" ||
      projectCategories.includes(category.title))`: the table entries whose
      title is one of the buttons, in table order. */
  function AvailableCategories(cs: seq<Category>, projectCategories: seq<string>): (r: seq<Category>)
    ensures forall c :: c in r <==> c in cs && (c.title == "All" || c.title in projectCategories)
    ensures IsSubseq(r, cs)
  {
    var keep := (c: Category) => c.title == "All" || c.title in projectCategories;
    FilterIsSubseq(cs, keep);
    Filter(cs, keep)
  }

  // ---------------------------------------------------------------------
  // Search and category filter

  /** `selectedCategory === "All" || project.category.title === selectedCategory`. */
  predicate MatchesCategory(p: Project, selected: string) {
    selected == "All" || p.category.title == selected
  }

  /** The search test: the lower-cased term occurs in the lower-cased title,
      in the lower-cased description, or in some lower-cased skill name. */
  predicate MatchesSearch(p: Project, term: string) {
    var t := ToLower(term);
    || Contains(ToLower(p.title), t)
    || Contains(ToLower(p.description), t)
    || (p.skills.Some? && exists i :: 0 <= i < |p.skills.value| && Contains(ToLower(p.skills.value[i].name), t))
  }

  function CategoryFilter(selected: string): Project -> bool {
    (p: Project) => MatchesCategory(p, selected)
  }

  function SearchFilter(term: string): Project -> bool {
    (p: Project) => MatchesSearch(p, term)
  }

  /** `filteredProjects`: the category filter, then the search filter. A
      project is shown exactly when it passes both, and the shown ones keep
      their order. */
  function FilteredProjects(ps: seq<Project>, selected: string, term: string): (r: seq<Project>)
    ensures forall p :: p in r <==> p in ps && MatchesCategory(p, selected) && MatchesSearch(p, term)
    ensures IsSubseq(r, ps)
  {
    var byCategory := Filter(ps, CategoryFilter(selected));
    FilterIsSubseq(ps, CategoryFilter(selected));
    FilterIsSubseq(byCategory, SearchFilter(term));
    IsSubseqTrans(Filter(byCategory, SearchFilter(term)), byCategory, ps);
    Filter(byCategory, SearchFilter(term))
  }

  /** Every project matches the empty search term. */
  lemma EmptySearchMatches(p: Project)
    ensures MatchesSearch(p, "")
  {
    ContainsEmpty(ToLower(p.title));
  }

  /** With an empty search term the category filter alone decides. */
  lemma EmptySearchKeepsCategory(ps: seq<Project>, selected: string)
    ensures FilteredProjects(ps, selected, "") == Filter(ps, CategoryFilter(selected))
  {
    var byCategory := Filter(ps, CategoryFilter(selected));
    forall i | 0 <= i < |byCategory| ensures SearchFilter("")(byCategory[i]) {
      EmptySearchMatches(byCategory[i]);
    }
    FilterAll(byCategory, SearchFilter(""));
  }

  /** "Reset Filters" (the empty term and "All") shows every project. */
  lemma ResetShowsAll(ps: seq<Project>)
    ensures FilteredProjects(ps, "All", "") == ps
  {
    EmptySearchKeepsCategory(ps, "All");
    FilterAll(ps, CategoryFilter("All"));
  }

  // ---------------------------------------------------------------------
  // Skill badges

  /** How many skill badges a card shows: none before the page runs on the
      client, then 3 below 640 pixels and 4 from there on. */
  function BadgeLimit(isClient: bool, width: int): (n: nat)
    ensures n <= 4
    ensures n == 0 <==> !isClient
    ensures isClient ==> n == (if width < 640 then 3 else 4)
  {
    if !isClient then 0 else if width < 640 then 3 else 4
  }

  /** `project.skills.slice(0, limit)` (nothing when there is no list). */
  function ShownBadges(p: Project, limit: nat): (r: seq<Skill>)
    ensures p.skills.None? ==> r == []
    ensures p.skills.Some? ==> |r| == (if |p.skills.value| < limit then |p.skills.value| else limit) && r == p.skills.value[..|r|]
  {
    if p.skills.None? then [] else Take(p.skills.value, limit)
  }

  /** The "+N more" badge: shown only on the client, for a list longer than
      the limit, with the number of skills not shown. */
  function MoreBadge(p: Project, isClient: bool, width: int): (r: Option<nat>)
    ensures r.Some? <==> isClient && p.skills.Some? && |p.skills.value| > BadgeLimit(isClient, width)
    ensures r.Some? ==> r.value > 0 && r.value + |ShownBadges(p, BadgeLimit(isClient, width))| == |p.skills.value|
  {
    var limit := BadgeLimit(isClient, width);
    if isClient && p.skills.Some? && |p.skills.value| > limit then Some(|p.skills.value| - limit) else None
  }
}
