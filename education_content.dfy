/** The education timeline and its summary figures
    (src/app/components/EducationContent.tsx). */
module EducationContent {
  import opened Wrappers
  import opened Text
  import opened Education

  // ---------------------------------------------------------------------
  // One entry

  /** `education.endDate || "Present"`: an empty end date reads "Present". */
  function EndDateShown(e: Education): (r: string)
    ensures e.endDate == "" ==> r == "Present"
    ensures e.endDate != "" ==> r == e.endDate
    ensures r != ""
  {
    if e.endDate == "" then "Present" else e.endDate
  }

  /** The degree line: the degree, then `" in " + field` when the field is
      present and not empty. */
  function DegreeLine(e: Education): (r: string)
    ensures |e.degree| <= |r| && r[..|e.degree|] == e.degree
    ensures e.field.Some? && e.field.value != "" ==> r[|e.degree|..] == " in " + e.field.value
    ensures e.field.None? || e.field == Some("") ==> r == e.degree
  {
    match e.field
    case Some(f) => if f != "" then e.degree + " in " + f else e.degree
    case None => e.degree
  }

  // ---------------------------------------------------------------------
  // Education at a glance

  /** `degrees.some((d) => d.includes(a) || d.includes(b))`: `a` or `b`
      occurs in some degree. */
  predicate AnyDegree(degrees: seq<string>, a: string, b: string) {
    exists k, i :: 0 <= k < |degrees| && 0 <= i <= |degrees[k]| && (OccursAt(degrees[k], a, i) || OccursAt(degrees[k], b, i))
  }

  /** The "Highest Degree" figure: the first of the four tests, in order
      of precedence, that some degree passes. */
  function HighestDegree(degrees: seq<string>): (r: string)
    ensures r == "Ph.D." <==> AnyDegree(degrees, "Ph.D", "Doctorate")
    ensures r == "M.S." <==> !AnyDegree(degrees, "Ph.D", "Doctorate") && AnyDegree(degrees, "Master", "M.S.")
    ensures r == "B.S." <==>
      !AnyDegree(degrees, "Ph.D", "Doctorate") && !AnyDegree(degrees, "Master", "M.S.") && AnyDegree(degrees, "Bachelor", "B.S.")
    ensures r == "Pursuing" <==>
      !AnyDegree(degrees, "Ph.D", "Doctorate") && !AnyDegree(degrees, "Master", "M.S.") && !AnyDegree(degrees, "Bachelor", "B.S.")
  {
    if AnyDegree(degrees, "Ph.D", "Doctorate") then "Ph.D."
    else if AnyDegree(degrees, "Master", "M.S.") then "M.S."
    else if AnyDegree(degrees, "Bachelor", "B.S.") then "B.S."
    else "Pursuing"
  }

  /** The four results from lowest to highest. */
  function DegreeRank(r: string): nat {
    if r == "Ph.D." then 3 else if r == "M.S." then 2 else if r == "B.S." then 1 else 0
  }

  /** Adding an entry never lowers the highest degree. */
  lemma HighestDegreeMonotone(degrees: seq<string>, d: string)
    ensures DegreeRank(HighestDegree(degrees + [d])) >= DegreeRank(HighestDegree(degrees))
  {
    var more := degrees + [d];
    assert forall k :: 0 <= k < |degrees| ==> more[k] == degrees[k];
    if AnyDegree(degrees, "Ph.D", "Doctorate") {
      var k, i :| 0 <= k < |degrees| && 0 <= i <= |degrees[k]| && (OccursAt(degrees[k], "Ph.D", i) || OccursAt(degrees[k], "Doctorate", i));
      assert more[k] == degrees[k];
    } else if AnyDegree(degrees, "Master", "M.S.") {
      var k, i :| 0 <= k < |degrees| && 0 <= i <= |degrees[k]| && (OccursAt(degrees[k], "Master", i) || OccursAt(degrees[k], "M.S.", i));
      assert more[k] == degrees[k];
    } else if AnyDegree(degrees, "Bachelor", "B.S.") {
      var k, i :| 0 <= k < |degrees| && 0 <= i <= |degrees[k]| && (OccursAt(degrees[k], "Bachelor", i) || OccursAt(degrees[k], "B.S.", i));
      assert more[k] == degrees[k];
    }
  }

  /** `educations.map((e) => e.degree)`. */
  function Degrees(es: seq<Education>): (r: seq<string>)
    ensures |r| == |es| && forall k :: 0 <= k < |es| ==> r[k] == es[k].degree
  {
    seq(|es|, k requires 0 <= k < |es| => es[k].degree)
  }

  /** `edu.achievements?.length || 0`. */
  function AchievementCount(e: Education): (n: nat)
    ensures e.achievements.None? ==> n == 0
    ensures e.achievements.Some? ==> n == |e.achievements.value|
  {
    match e.achievements
    case Some(a) => |a|
    case None => 0
  }

  /** `educations.reduce((total, edu) => total + (edu.achievements?.length || 0), 0)`,
      folding from the left. */
  function TotalAchievements(es: seq<Education>): (n: nat)
    ensures es == [] ==> n == 0
    ensures forall k :: 0 <= k < |es| ==> AchievementCount(es[k]) <= n
    decreases |es|
  {
    if es == [] then 0 else TotalAchievements(es[..|es| - 1]) + AchievementCount(es[|es| - 1])
  }

  /** The total over two runs of entries is the sum of their totals, and an
      entry without achievements adds nothing. */
  lemma {:induction false} TotalAchievementsAppend(a: seq<Education>, b: seq<Education>)
    ensures TotalAchievements(a + b) == TotalAchievements(a) + TotalAchievements(b)
    decreases |b|
  {
    if b != [] {
      var ab := a + b;
      assert ab[..|ab| - 1] == a + b[..|b| - 1];
      TotalAchievementsAppend(a, b[..|b| - 1]);
    } else {
      assert a + b == a;
    }
  }

  /** The four summary figures, but the years: highest degree, number of
      institutions, number of achievements. */
  datatype Glance = Glance(highestDegree: string, institutions: nat, achievements: nat)

  function AtAGlance(es: seq<Education>): (g: Glance)
    ensures g.institutions == |es|
    ensures g.highestDegree == HighestDegree(Degrees(es))
    ensures g.achievements == TotalAchievements(es)
  {
    Glance(HighestDegree(Degrees(es)), |es|, TotalAchievements(es))
  }

  /** The degrees of the site's entries. */
  lemma SiteDegrees()
    ensures Degrees(educations) == ["Bachelor's Degree", "High School Diploma", "Junior High School"]
  {
  }

  /** When no degree has a 'P', a 't' or an 'M', none names a doctorate
      or a master's, so a degree starting with "Bachelor" makes the
      highest degree "B.S.". */
  lemma BachelorIsHighest(ds: seq<string>)
    requires forall k :: 0 <= k < |ds| ==> 'P' !in ds[k] && 't' !in ds[k] && 'M' !in ds[k]
    requires |ds| > 0 && OccursAt(ds[0], "Bachelor", 0)
    ensures HighestDegree(ds) == "B.S."
  {
    forall k | 0 <= k < |ds|
      ensures forall i :: !OccursAt(ds[k], "Ph.D", i) && !OccursAt(ds[k], "Doctorate", i)
      ensures forall i :: !OccursAt(ds[k], "Master", i) && !OccursAt(ds[k], "M.S.", i)
    {
      MissingChar(ds[k], "Ph.D", 'P');
      MissingChar(ds[k], "Doctorate", 't');
      MissingChar(ds[k], "Master", 'M');
      MissingChar(ds[k], "M.S.", 'M');
    }
  }

  /** Two achievements at university, one at high school, none listed for
      junior high school. */
  lemma SiteAchievements()
    ensures TotalAchievements(educations) == 3
  {
    assert [Unair][..0] == [];
    assert TotalAchievements([Unair]) == 2;
    assert [Unair, Sman5][..1] == [Unair];
    assert TotalAchievements([Unair, Sman5]) == 3;
    assert educations[..2] == [Unair, Sman5];
  }

  /** The site's degrees name neither a doctorate nor a master's, and the
      first names a bachelor's. */
  lemma SiteDegreesHighest()
    ensures HighestDegree(["Bachelor's Degree", "High School Diploma", "Junior High School"]) == "B.S."
  {
    var ds := ["Bachelor's Degree", "High School Diploma", "Junior High School"];
    BachelorIsHighest(ds);
  }

  /** With the site's entries a bachelor's degree is the highest. */
  lemma SiteHighestDegree()
    ensures HighestDegree(Degrees(educations)) == "B.S."
  {
    SiteDegrees();
    SiteDegreesHighest();
  }

  /** With the site's entries: a bachelor's degree is the highest, from
      three institutions with three achievements between them. */
  lemma SiteAtAGlance()
    ensures AtAGlance(educations) == Glance("B.S.", 3, 3)
  {
    SiteHighestDegree();
    SiteAchievements();
  }
}
