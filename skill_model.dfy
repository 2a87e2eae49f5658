/** The skill record and the queries over a skills table that the data
    module and the components share (src/app/types/skills.ts and the
    functions of src/app/data/skills.ts, stated for any table). */
module SkillModel {
  import opened Wrappers
  import opened Seqs
  import opened Categories
  import opened Records

  /** A skill. `featured` is optional in the source and no entry sets it, so
      a missing value is `false`. The `description` is display text that no
      logic reads, so the model leaves it out. */
  datatype Skill = Skill(id: string, name: string, level: int, color: string,
                         featured: bool, category: Category)

  /** The test `skill.category.id === categoryId`. */
  function InCategory(categoryId: string): Skill -> bool {
    (s: Skill) => s.category.id == categoryId
  }

  /** The comparator `(a, b) => b.level - a.level` orders by this key. */
  function NegLevel(s: Skill): int {
    -s.level
  }

  /** `[...ss].sort((a, b) => b.level - a.level).slice(0, count)`: the
      `count` skills of highest level (all of them when `count` is larger,
      fewer when it is negative, as `slice` counts from the end). */
  function TopByLevel(ss: seq<Skill>, count: int): (r: seq<Skill>)
    ensures |r| == SliceEnd(|ss|, count)
    ensures forall i, j :: 0 <= i < j < |r| ==> r[i].level >= r[j].level
    ensures multiset(r) <= multiset(ss)
    ensures forall x, y :: x in r && y in ss && y !in r ==> y.level <= x.level
    ensures forall k :: IsPrefix(KeyClass(r, NegLevel, k), KeyClass(ss, NegLevel, k))
  {
    var r := TopBy(ss, NegLevel, count);
    TopLevels(ss, r);
    r
  }

  /** Read through `NegLevel`, the order and the bound of `TopBy` are
      about levels. */
  lemma TopLevels(ss: seq<Skill>, r: seq<Skill>)
    requires SortedBy(r, NegLevel)
    requires forall x, y :: x in r && y in ss && y !in r ==> NegLevel(x) <= NegLevel(y)
    ensures forall i, j :: 0 <= i < j < |r| ==> r[i].level >= r[j].level
    ensures forall x, y :: x in r && y in ss && y !in r ==> y.level <= x.level
  {
    forall i, j | 0 <= i < j < |r| ensures r[i].level >= r[j].level {
      assert NegLevel(r[i]) <= NegLevel(r[j]);
    }
    forall x, y | x in r && y in ss && y !in r ensures y.level <= x.level {
      assert NegLevel(x) <= NegLevel(y);
    }
  }

  /** A value of the object `getSkillsGroupedByCategory` returns. */
  datatype Group = Group(category: Category, skills: seq<Skill>)

  /** The skills of `ss` in category `c`. */
  function SkillsOf(ss: seq<Skill>, c: Category): seq<Skill> {
    Filter(ss, InCategory(c.id))
  }

  /** What the `forEach` over `cs` leaves in `result`: each category with
      skills assigns `result[c.id]`, later ones overwriting earlier ones. */
  function GroupedAfter(ss: seq<Skill>, cs: seq<Category>): Record<Group>
    decreases |cs|
  {
    if cs == [] then []
    else
      var prev := GroupedAfter(ss, cs[..|cs| - 1]);
      var c := cs[|cs| - 1];
      if |SkillsOf(ss, c)| > 0 then Assign(prev, c.id, Group(c, SkillsOf(ss, c))) else prev
  }

  /** `getSkillsGroupedByCategory`, on a skills table and a category list. */
  method GroupSkills(ss: seq<Skill>, cs: seq<Category>) returns (result: Record<Group>)
    ensures result == GroupedAfter(ss, cs)
  {
    result := [];
    for i := 0 to |cs|
      invariant result == GroupedAfter(ss, cs[..i])
    {
      var category := cs[i];
      var categorySkills := Filter(ss, InCategory(category.id));
      assert cs[..i + 1][..i] == cs[..i];
      if |categorySkills| > 0 {
        result := Assign(result, category.id, Group(category, categorySkills));
      }
    }
    assert cs[..|cs|] == cs;
  }

  /** Some skill of `ss` belongs to category `c`. */
  predicate SomeSkillIn(ss: seq<Skill>, c: Category) {
    exists i :: 0 <= i < |ss| && ss[i].category.id == c.id
  }

  /** The categories that have skills: `SomeSkillIn` as a filter predicate. */
  function HasSkillsIn(ss: seq<Skill>): Category -> bool {
    (c: Category) => SomeSkillIn(ss, c)
  }

  /** The test `categorySkills.length > 0` holds exactly for the categories
      some skill belongs to. */
  lemma HasSkillsIff(ss: seq<Skill>, c: Category)
    ensures |SkillsOf(ss, c)| > 0 <==> SomeSkillIn(ss, c)
  {
    if SomeSkillIn(ss, c) {
      var i :| 0 <= i < |ss| && ss[i].category.id == c.id;
      assert ss[i] in SkillsOf(ss, c);
    }
    if |SkillsOf(ss, c)| > 0 {
      var x := SkillsOf(ss, c)[0];
      assert x in ss;
      var i :| 0 <= i < |ss| && ss[i] == x;
    }
  }

  lemma IdsSnoc(cs: seq<Category>, c: Category)
    ensures Ids(cs + [c]) == Ids(cs) + [c.id]
  {
  }

  lemma FilterSnoc(cs: seq<Category>, c: Category, p: Category -> bool)
    ensures Filter(cs + [c], p) == Filter(cs, p) + (if p(c) then [c] else [])
  {
    FilterAppend(cs, [c], p);
    FilterCons(c, [], p);
    assert [c] + [] == [c];
  }

  /** A property of the result is named by one of the categories. */
  lemma {:induction false} GroupedKeysFromCategories(ss: seq<Skill>, cs: seq<Category>)
    ensures forall k :: k in Keys(GroupedAfter(ss, cs)) ==> k in Ids(cs)
    decreases |cs|
  {
    if cs != [] {
      var init, c := cs[..|cs| - 1], cs[|cs| - 1];
      assert cs == init + [c];
      GroupedKeysFromCategories(ss, init);
      IdsSnoc(init, c);
    }
  }

  /** There is no property for a key that names no category. */
  lemma GroupedMissing(ss: seq<Skill>, cs: seq<Category>, k: string)
    requires k !in Ids(cs)
    ensures Get(GroupedAfter(ss, cs), k) == None
  {
    GroupedKeysFromCategories(ss, cs);
  }

  /** With distinct category ids, the properties are the categories that
      have skills, in category order, each once. */
  lemma {:induction false} GroupedKeys(ss: seq<Skill>, cs: seq<Category>)
    requires IdsDistinct(cs)
    ensures WellFormed(GroupedAfter(ss, cs))
    ensures Keys(GroupedAfter(ss, cs)) == Ids(Filter(cs, HasSkillsIn(ss)))
    decreases |cs|
  {
    if cs != [] {
      var init, c := cs[..|cs| - 1], cs[|cs| - 1];
      assert cs == init + [c];
      assert IdsDistinct(init);
      GroupedKeys(ss, init);
      FilterSnoc(init, c, HasSkillsIn(ss));
      HasSkillsIff(ss, c);
      if |SkillsOf(ss, c)| > 0 {
        GroupedKeysFromCategories(ss, init);
        assert c.id !in Ids(init) by {
          forall j | 0 <= j < |init| ensures Ids(init)[j] != c.id {
            assert init[j] == cs[j];
          }
        }
        IdsSnoc(Filter(init, HasSkillsIn(ss)), c);
      } else {
        assert Filter(init, HasSkillsIn(ss)) + [] == Filter(init, HasSkillsIn(ss));
      }
    }
  }

  /** With distinct category ids, each category with skills has a property
      holding it and exactly its skills, and the others have none. */
  lemma {:induction false} GroupedValues(ss: seq<Skill>, cs: seq<Category>, i: int)
    requires IdsDistinct(cs) && 0 <= i < |cs|
    ensures Get(GroupedAfter(ss, cs), cs[i].id) ==
      (if |SkillsOf(ss, cs[i])| > 0 then Some(Group(cs[i], SkillsOf(ss, cs[i]))) else None)
    decreases |cs|
  {
    var init, c := cs[..|cs| - 1], cs[|cs| - 1];
    assert cs == init + [c];
    assert IdsDistinct(init);
    if i < |init| {
      GroupedValues(ss, init, i);
      assert cs[i] == init[i] && cs[i].id != c.id;
    } else if |SkillsOf(ss, c)| == 0 {
      assert c.id !in Ids(init) by {
        forall j | 0 <= j < |init| ensures Ids(init)[j] != c.id {
          assert init[j] == cs[j];
        }
      }
      GroupedMissing(ss, init, c.id);
    }
  }
}
