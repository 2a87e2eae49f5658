/** The skills table and its queries (src/app/data/skills.ts). */
module Skills {
  import opened Wrappers
  import opened Seqs
  import opened Categories
  import opened Records
  import opened SkillModel

  // The entries of the skills table. Each category is the table entry that
  // `getCategoryById` returns for its id (`CategoriesResolve`).
  const JavaScript := Skill("javascript", "JavaScript", 90, "from-yellow-500 to-amber-500", false, Programming)
  const TypeScript := Skill("typescript", "TypeScript", 85, "from-blue-500 to-blue-700", false, Programming)
  const Java := Skill("java", "Java", 75, "from-red-500 to-orange-600", false, Programming)
  const Php := Skill("php", "PHP", 90, "from-indigo-500 to-purple-600", false, Programming)
  const Dart := Skill("dart", "Dart", 80, "from-cyan-500 to-sky-600", false, Programming)
  const Golang := Skill("go", "Golang", 70, "from-sky-400 to-blue-500", false, Programming)
  const Python := Skill("python", "Python", 85, "from-blue-600 to-teal-500", false, Programming)
  const React := Skill("react", "React", 85, "from-cyan-400 to-blue-500", false, Frontend)
  const NextJs := Skill("nextjs", "Next.js", 80, "from-gray-700 to-gray-900", false, Frontend)
  const Tailwind := Skill("tailwind", "TailwindCSS", 90, "from-cyan-500 to-blue-500", false, Frontend)
  const Html5 := Skill("html5", "HTML5", 95, "from-red-500 to-orange-500", false, Frontend)
  const Css3 := Skill("css3", "CSS3", 90, "from-blue-500 to-blue-700", false, Frontend)
  const Bootstrap := Skill("bootstrap", "Bootstrap", 85, "from-purple-600 to-indigo-700", false, Frontend)
  const NodeJs := Skill("nodejs", "Node.js", 85, "from-green-500 to-emerald-600", false, Backend)
  const Express := Skill("express", "Express.js", 80, "from-gray-600 to-gray-800", false, Backend)
  const NestJs := Skill("nest", "NestJS", 80, "from-red-500 to-pink-500", false, Backend)
  const Laravel := Skill("laravel", "Laravel", 90, "from-red-600 to-orange-500", false, Backend)
  const Django := Skill("django", "Django", 80, "from-green-700 to-blue-500", false, Backend)
  const RestApi := Skill("restapi", "REST API", 85, "from-purple-500 to-indigo-500", false, Backend)
  const MySql := Skill("mysql", "MySQL", 85, "from-blue-700 to-indigo-800", false, DatabaseCategory)
  const Firebase := Skill("firebase", "Firebase", 80, "from-yellow-500 to-amber-600", false, DatabaseCategory)
  const Flutter := Skill("flutter", "Flutter", 80, "from-cyan-500 to-blue-600", false, Mobile)
  const Git := Skill("git", "Git", 85, "from-orange-500 to-red-600", false, DevOps)
  const Docker := Skill("docker", "Docker", 75, "from-blue-500 to-cyan-600", false, DevOps)

  /** The skills table, in declaration order. */
  const skills: seq<Skill> := [
    JavaScript, TypeScript, Java, Php, Dart, Golang,
    Python, React, NextJs, Tailwind, Html5, Css3,
    Bootstrap, NodeJs, Express, NestJs, Laravel, Django,
    RestApi, MySql, Firebase, Flutter, Git, Docker
  ]

  /** `getSkillById`: the first skill with this id, if any. */
  function GetSkillById(id: string): (r: Option<Skill>)
    ensures r.Some? ==> r.value in skills && r.value.id == id
    ensures r.None? <==> forall i :: 0 <= i < |skills| ==> skills[i].id != id
  {
    Find(skills, (s: Skill) => s.id == id)
  }

  predicate SkillIdsDistinct(ss: seq<Skill>) {
    forall i, j :: 0 <= i < j < |ss| ==> ss[i].id != ss[j].id
  }

  /** No two skills of the table share an id. */
  lemma SkillIdsAreDistinct()
    ensures SkillIdsDistinct(skills)
  {
    SkillIdsDistinctFrom(0, 8);
    SkillIdsDistinctFrom(8, 16);
    SkillIdsDistinctFrom(16, 24);
  }

  lemma SkillIdsDistinctFrom(lo: int, hi: int)
    requires (lo, hi) in {(0, 8), (8, 16), (16, 24)}
    ensures forall i, j :: lo <= i < hi && i < j < |skills| ==> skills[i].id != skills[j].id
  {
  }

  /** Looking up the id of any skill in the table finds that skill. */
  lemma SkillLookupRoundTrip(k: int)
    requires 0 <= k < |skills|
    ensures GetSkillById(skills[k].id) == Some(skills[k])
  {
    SkillIdsAreDistinct();
    FindAt(skills, (s: Skill) => s.id == skills[k].id, k);
  }

  /** Looking up the id of any skill of the table finds that skill. */
  lemma SkillsResolve()
    ensures forall s :: s in skills ==> GetSkillById(s.id) == Some(s)
  {
    forall s | s in skills
      ensures GetSkillById(s.id) == Some(s)
    {
      var k :| 0 <= k < |skills| && skills[k] == s;
      SkillLookupRoundTrip(k);
    }
  }

  /** The table lists the skills grouped by category, one run each. */
  lemma CategoryRuns()
    ensures forall i :: 0 <= i < 7 ==> skills[i].category == Programming
    ensures forall i :: 7 <= i < 13 ==> skills[i].category == Frontend
    ensures forall i :: 13 <= i < 19 ==> skills[i].category == Backend
    ensures forall i :: 19 <= i < 21 ==> skills[i].category == DatabaseCategory
    ensures forall i :: 21 <= i < 22 ==> skills[i].category == Mobile
    ensures forall i :: 22 <= i < 24 ==> skills[i].category == DevOps
  {
  }

  /** Every skill's category is what `getCategoryById` returns for its id,
      so none of the `as Category` casts in the table hides an `undefined`. */
  lemma CategoriesResolve()
    ensures forall i :: 0 <= i < |skills| ==> GetCategoryById(skills[i].category.id) == Some(skills[i].category)
  {
    CategoryRuns();
    LookupRoundTrip(0);
    LookupRoundTrip(1);
    LookupRoundTrip(3);
    LookupRoundTrip(4);
    LookupRoundTrip(5);
    LookupRoundTrip(7);
  }

  /** `getSkillsWithCategories`: the whole table, each skill carrying its
      resolved category. */
  function GetSkillsWithCategories(): (r: seq<Skill>)
    ensures |r| == 24
    ensures forall i :: 0 <= i < |r| ==> r[i] == skills[i]
    ensures forall i :: 0 <= i < |r| ==> GetCategoryById(r[i].category.id) == Some(r[i].category)
  {
    CategoriesResolve();
    skills
  }

  /** `getSkillsByCategory`: the skills of one category, in table order. */
  function GetSkillsByCategory(categoryId: string): (r: seq<Skill>)
    ensures forall s :: s in r <==> s in skills && s.category.id == categoryId
    ensures IsSubseq(r, skills)
  {
    FilterIsSubseq(skills, InCategory(categoryId));
    Filter(skills, InCategory(categoryId))
  }

  /** Each category's skills are one run of the table. */
  lemma SkillsByCategoryTable()
    ensures GetSkillsByCategory("programming") == skills[0..7]
    ensures GetSkillsByCategory("frontend") == skills[7..13]
    ensures GetSkillsByCategory("backend") == skills[13..19]
    ensures GetSkillsByCategory("database") == skills[19..21]
    ensures GetSkillsByCategory("mobile") == skills[21..22]
    ensures GetSkillsByCategory("devops") == skills[22..24]
  {
    CategoryRun("programming", 0, 7);
    CategoryRun("frontend", 7, 13);
    CategoryRun("backend", 13, 19);
    CategoryRun("database", 19, 21);
    CategoryRun("mobile", 21, 22);
    CategoryRun("devops", 22, 24);
  }

  lemma CategoryRun(id: string, lo: int, hi: int)
    requires (id, lo, hi) in {("programming", 0, 7), ("frontend", 7, 13), ("backend", 13, 19),
                              ("database", 19, 21), ("mobile", 21, 22), ("devops", 22, 24)}
    ensures GetSkillsByCategory(id) == skills[lo..hi]
  {
    CategoryRuns();
    FilterSlice(skills, InCategory(id), lo, hi);
  }

  /** Four categories have no skills. */
  lemma EmptyCategories()
    ensures GetSkillsByCategory("fullstack") == []
    ensures GetSkillsByCategory("cloud") == []
    ensures GetSkillsByCategory("ui") == []
    ensures GetSkillsByCategory("tools") == []
  {
    EmptyCategory("fullstack");
    EmptyCategory("cloud");
    EmptyCategory("ui");
    EmptyCategory("tools");
  }

  lemma EmptyCategory(id: string)
    requires id in {"fullstack", "cloud", "ui", "tools"}
    ensures GetSkillsByCategory(id) == []
  {
    CategoryRuns();
    FilterNone(skills, InCategory(id));
  }

  // ---------------------------------------------------------------------
  // Top skills

  /** The default of `count` in `getTopSkills`. */
  const DefaultTopCount := 10

  /** `getTopSkills(count)` on the skills table; `TopByLevel` states what it
      returns. */
  function GetTopSkills(count: int): seq<Skill> {
    TopByLevel(skills, count)
  }

  // ---------------------------------------------------------------------
  // Featured skills

  /** `getFeaturedSkills`: the skills whose `featured` flag is set. */
  function GetFeaturedSkills(): (r: seq<Skill>)
    ensures forall s :: s in r <==> s in skills && s.featured
  {
    Filter(skills, (s: Skill) => s.featured)
  }

  /** No entry of the table sets `featured`. */
  lemma NoFeaturedSkills()
    ensures GetFeaturedSkills() == []
  {
    FilterNone(skills, (s: Skill) => s.featured);
  }

  // ---------------------------------------------------------------------
  // Grouping by category

  /** `getSkillsGroupedByCategory()`: the skills table grouped by the
      category table. */
  method GetSkillsGroupedByCategory() returns (result: Record<Group>)
    ensures result == GroupedAfter(skills, GetAllCategories())
  {
    result := GroupSkills(skills, GetAllCategories());
  }

  /** Which categories of the table have skills. */
  lemma HasSkillsTable()
    ensures forall i :: 0 <= i < |categories| ==> (SomeSkillIn(skills, categories[i]) <==> i in [0, 1, 3, 4, 5, 7])
  {
    CategoryRuns();
    assert skills[7].category == Frontend && skills[13].category == Backend && skills[21].category == Mobile;
    assert skills[19].category == DatabaseCategory && skills[22].category == DevOps && skills[0].category == Programming;
  }

  /** The categories with skills, in category-table order. */
  lemma CategoriesWithSkills()
    ensures Filter(categories, HasSkillsIn(skills)) == [Frontend, Backend, Mobile, DatabaseCategory, DevOps, Programming]
  {
    HasSkillsTable();
    FilterWithSkills(HasSkillsIn(skills));
  }

  /** The grouped object has the properties frontend, backend, mobile,
      database, devops and programming, in that order (the order of the
      category table), and each of them once. */
  lemma GroupedSkillsKeys()
    ensures WellFormed(GroupedAfter(skills, categories))
    ensures Keys(GroupedAfter(skills, categories)) == ["frontend", "backend", "mobile", "database", "devops", "programming"]
  {
    CategoryIdsDistinct();
    GroupedKeys(skills, categories);
    CategoriesWithSkills();
    IdsWithSkills();
  }

  /** Every skill is listed under its own category's property, together
      with all the other skills of that category. */
  lemma EverySkillGrouped(i: int)
    requires 0 <= i < |skills|
    ensures Get(GroupedAfter(skills, categories), skills[i].category.id) ==
      Some(Group(skills[i].category, GetSkillsByCategory(skills[i].category.id)))
    ensures skills[i] in GetSkillsByCategory(skills[i].category.id)
  {
    CategoryIdsDistinct();
    CategoryRuns();
    var c := skills[i].category;
    var k :| k in [0, 1, 3, 4, 5, 7] && categories[k] == c;
    GroupedValues(skills, categories, k);
  }
}
