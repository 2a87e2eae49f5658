/** The development categories that skills and projects belong to
    (src/app/data/categories.ts). */
module Categories {
  import opened Wrappers
  import opened Seqs
  import opened Text
  import opened Icons

  /** A category. Its `description` is display text that no logic reads, so
      the model leaves it out. */
  datatype Category = Category(id: string, title: string, icon: Icon)

  const Frontend := Category("frontend", "Frontend", Layers)
  const Backend := Category("backend", "Backend", Server)
  const Fullstack := Category("fullstack", "Fullstack", Code)
  const Mobile := Category("mobile", "Mobile", Smartphone)
  const DatabaseCategory := Category("database", "Database", Database)
  const DevOps := Category("devops", "DevOps", GitBranch)
  const CloudComputing := Category("cloud", "Cloud Computing", Cloud)
  const Programming := Category("programming", "Programming Languages", Terminal)
  const UiUx := Category("ui", "UI/UX Design", Palette)
  const Tools := Category("tools", "Development Tools", Wrench)

  /** The category table, in declaration order. */
  const categories: seq<Category> :=
    [Frontend, Backend, Fullstack, Mobile, DatabaseCategory, DevOps, CloudComputing, Programming, UiUx, Tools]

  /** The ids of `cs`, in order. */
  function Ids(cs: seq<Category>): seq<string> {
    seq(|cs|, i requires 0 <= i < |cs| => cs[i].id)
  }

  /** No two categories share an id. */
  predicate IdsDistinct(cs: seq<Category>) {
    forall i, j :: 0 <= i < j < |cs| ==> cs[i].id != cs[j].id
  }

  /** `getCategoryById`: the category with this id, if there is one. */
  function GetCategoryById(id: string): (r: Option<Category>)
    ensures r.Some? ==> r.value in categories && r.value.id == id
    ensures r.None? <==> forall i :: 0 <= i < |categories| ==> categories[i].id != id
  {
    Find(categories, (c: Category) => c.id == id)
  }

  /** `getAllCategories`: every category once, in table order. */
  function GetAllCategories(): (r: seq<Category>)
    ensures |r| == 10 && IdsDistinct(r)
    ensures forall c :: c in r <==> c in categories
    ensures forall i :: 0 <= i < 10 ==> r[i] == categories[i]
  {
    categories
  }

  lemma CategoryIdsDistinct()
    ensures IdsDistinct(categories)
  {
  }

  /** Looking up the id of any category in the table finds that category. */
  lemma LookupRoundTrip(k: int)
    requires 0 <= k < |categories|
    ensures GetCategoryById(categories[k].id) == Some(categories[k])
  {
    CategoryIdsDistinct();
    FindAt(categories, (c: Category) => c.id == categories[k].id, k);
  }

  /** The ids of the categories that have skills, in table order. */
  lemma IdsWithSkills()
    ensures Ids([Frontend, Backend, Mobile, DatabaseCategory, DevOps, Programming]) ==
      ["frontend", "backend", "mobile", "database", "devops", "programming"]
  {
  }

  /** A test that holds for frontend, backend, mobile, database, devops and
      programming and for no other category keeps those, in table order. */
  lemma FilterWithSkills(p: Category -> bool)
    requires forall i :: 0 <= i < |categories| ==> (p(categories[i]) <==> i in [0, 1, 3, 4, 5, 7])
    ensures Filter(categories, p) == [Frontend, Backend, Mobile, DatabaseCategory, DevOps, Programming]
  {
    assert p(categories[0]) && p(categories[1]) && p(categories[3]);
    assert p(categories[4]) && p(categories[5]) && p(categories[7]);
    FilterByIndex(categories, p, [0, 1, 3, 4, 5, 7],
      [Frontend, Backend, Mobile, DatabaseCategory, DevOps, Programming]);
  }

  /** The test on a category that looks only at its id. */
  function WithId(q: string -> bool): Category -> bool {
    (c: Category) => q(c.id)
  }

  /** A test on ids that holds for frontend, backend, database, devops and
      programming and for no other id of the table keeps those five
      categories, in table order. */
  lemma FilterById(q: string -> bool)
    requires q("frontend") && q("backend") && !q("fullstack") && !q("mobile") && q("database")
    requires q("devops") && !q("cloud") && q("programming") && !q("ui") && !q("tools")
    ensures Filter(categories, WithId(q)) == [Frontend, Backend, DatabaseCategory, DevOps, Programming]
  {
    FilterOfTen(categories, WithId(q));
  }

  /** Which positions of a ten-element list pass the test decides what the
      filter keeps. */
  lemma FilterOfTen<T(!new)>(cs: seq<T>, p: T -> bool)
    requires |cs| == 10
    requires p(cs[0]) && p(cs[1]) && !p(cs[2]) && !p(cs[3]) && p(cs[4])
    requires p(cs[5]) && !p(cs[6]) && p(cs[7]) && !p(cs[8]) && !p(cs[9])
    ensures Filter(cs, p) == [cs[0], cs[1], cs[4], cs[5], cs[7]]
  {
    var idx := [0, 1, 4, 5, 7];
    forall i | 0 <= i < |cs| && p(cs[i])
      ensures i in idx
    {
      if i == 0 { assert idx[0] == i; }
      else if i == 1 { assert idx[1] == i; }
      else if i == 4 { assert idx[2] == i; }
      else if i == 5 { assert idx[3] == i; }
      else if i == 7 { assert idx[4] == i; }
      else if i == 2 { assert false; }
      else if i == 3 { assert false; }
      else if i == 6 { assert false; }
      else if i == 8 { assert false; }
      else if i == 9 { assert false; }
    }
    FilterByIndex(cs, p, idx, [cs[0], cs[1], cs[4], cs[5], cs[7]]);
  }

  /** The first word of the titles of frontend, backend, database and
      devops is the whole title; that of "Programming Languages" is
      "Programming". */
  lemma TitleFirstWords()
    ensures SplitHead(Frontend.title, ' ') == "Frontend"
    ensures SplitHead(Backend.title, ' ') == "Backend"
    ensures SplitHead(DatabaseCategory.title, ' ') == "Database"
    ensures SplitHead(DevOps.title, ' ') == "DevOps"
    ensures SplitHead(Programming.title, ' ') == "Programming"
  {
    FrontendFirstWord();
    BackendFirstWord();
    DatabaseFirstWord();
    DevOpsFirstWord();
    ProgrammingFirstWord();
  }

  lemma FrontendFirstWord()
    ensures SplitHead(Frontend.title, ' ') == "Frontend"
  {
    WholeWord(Frontend.title, ' ');
  }

  lemma BackendFirstWord()
    ensures SplitHead(Backend.title, ' ') == "Backend"
  {
    WholeWord(Backend.title, ' ');
  }

  lemma DatabaseFirstWord()
    ensures SplitHead(DatabaseCategory.title, ' ') == "Database"
  {
    WholeWord(DatabaseCategory.title, ' ');
  }

  lemma DevOpsFirstWord()
    ensures SplitHead(DevOps.title, ' ') == "DevOps"
  {
    WholeWord(DevOps.title, ' ');
  }

  lemma ProgrammingFirstWord()
    ensures SplitHead(Programming.title, ' ') == "Programming"
  {
    assert Programming.title == "Programming" + " Languages";
    FirstWord("Programming", " Languages", ' ');
  }
}
