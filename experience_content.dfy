/** The experience timeline (src/app/components/ExperienceContent.tsx):
    which entry is expanded, how the expand button changes it, and the
    type badge of an entry. */
module ExperienceContent {
  import opened Wrappers
  import opened Seqs
  import opened Text
  import opened Experiences

  // ---------------------------------------------------------------------
  // The expanded entry

  /** `experiences.find((exp) => exp.featured)?.id || null`: the id of the
      first featured entry, unless there is none or its id is the empty
      string, which is falsy. */
  function InitialExpandedId(es: seq<Experience>): (r: Option<string>)
    ensures r.Some? ==> Find(es, IsFeatured).Some? && r.value == Find(es, IsFeatured).value.id && r.value != ""
    ensures r.None? <==> (forall k :: 0 <= k < |es| ==> !es[k].featured) || Find(es, IsFeatured).value.id == ""
  {
    match Find(es, IsFeatured)
    case Some(e) => if e.id != "" then Some(e.id) else None
    case None => None
  }

  /** The first featured entry, when its id is not empty, starts expanded. */
  lemma FirstFeaturedStartsExpanded(es: seq<Experience>, k: int)
    requires 0 <= k < |es| && es[k].featured && es[k].id != ""
    requires forall i :: 0 <= i < k ==> !es[i].featured
    ensures InitialExpandedId(es) == Some(es[k].id)
  {
    FindAt(es, IsFeatured, k);
  }

  /** No entry of the site's table is featured, so every entry starts
      collapsed. */
  lemma InitiallyCollapsed()
    ensures InitialExpandedId(experiences) == None
  {
    assert forall k :: 0 <= k < |experiences| ==> !experiences[k].featured;
  }

  /** `expandedId === id ? null : id`. */
  function Toggle(expandedId: Option<string>, id: string): (r: Option<string>)
    ensures r == None <==> expandedId == Some(id)
    ensures r != None ==> r == Some(id)
  {
    if expandedId == Some(id) then None else Some(id)
  }

  /** Toggling the same entry twice from the collapsed state, or from that
      entry expanded, comes back to where it started; from another entry
      expanded it ends collapsed. */
  lemma ToggleTwice(expandedId: Option<string>, id: string)
    ensures expandedId == None || expandedId == Some(id) ==> Toggle(Toggle(expandedId, id), id) == expandedId
    ensures expandedId != None && expandedId != Some(id) ==> Toggle(Toggle(expandedId, id), id) == None
  {
  }

  /** The entry whose details are shown: `expandedId === experience.id`. */
  predicate IsExpanded(expandedId: Option<string>, e: Experience) {
    expandedId == Some(e.id)
  }

  /** The ids of the entries are distinct. */
  predicate IdsDistinct(es: seq<Experience>) {
    forall i, j :: 0 <= i < j < |es| ==> es[i].id != es[j].id
  }

  /** With distinct ids at most one entry is expanded at a time. */
  lemma AtMostOneExpanded(es: seq<Experience>, expandedId: Option<string>, i: int, j: int)
    requires IdsDistinct(es) && 0 <= i < |es| && 0 <= j < |es|
    requires IsExpanded(expandedId, es[i]) && IsExpanded(expandedId, es[j])
    ensures i == j
  {
  }

  /** The site's table has distinct ids. */
  lemma ExperienceIdsDistinct()
    ensures IdsDistinct(experiences)
  {
  }

  /** The state behind the timeline: the expanded entry, if any. */
  class Timeline {
    var expandedId: Option<string>

    /** `useState(experiences.find((exp) => exp.featured)?.id || null)`. */
    constructor ()
      ensures expandedId == InitialExpandedId(experiences)
    {
      expandedId := InitialExpandedId(experiences);
    }

    /** `toggleExpand(id)`: collapse the entry when it is the expanded one,
        expand it (collapsing any other) otherwise. */
    method ToggleExpand(id: string)
      modifies this
      ensures expandedId == Toggle(old(expandedId), id)
      ensures old(expandedId) == Some(id) ==> expandedId == None
      ensures old(expandedId) != Some(id) ==> expandedId == Some(id)
    {
      expandedId := if expandedId == Some(id) then None else Some(id);
    }
  }

  // ---------------------------------------------------------------------
  // The type badge

  const WorkBadge := "bg-blue-500/10 text-blue-300 border border-blue-500/30"
  const VolunteerBadge := "bg-green-500/10 text-green-300 border border-green-500/30"
  const InternshipBadge := "bg-purple-500/10 text-purple-300 border border-purple-500/30"
  const EducationBadge := "bg-amber-500/10 text-amber-300 border border-amber-500/30"
  const DefaultBadge := "bg-slate-700/50 text-gray-300 border border-slate-600/30"

  /** `getTypeBadgeStyle`: one style per known type, the default for every
      other string. */
  function TypeBadgeStyle(kind: string): (r: string)
    ensures kind == "work" <==> r == WorkBadge
    ensures kind == "volunteer" <==> r == VolunteerBadge
    ensures kind == "internship" <==> r == InternshipBadge
    ensures kind == "education" <==> r == EducationBadge
    ensures kind !in {"work", "volunteer", "internship", "education"} <==> r == DefaultBadge
  {
    match kind
    case "work" => WorkBadge
    case "volunteer" => VolunteerBadge
    case "internship" => InternshipBadge
    case "education" => EducationBadge
    case _ => DefaultBadge
  }

  /** The badge of an entry: shown when the type is present and not empty,
      with that type's style and the type with its first letter upper-cased
      as its text. */
  function TypeBadge(e: Experience): (r: Option<(string, string)>)
    ensures r.Some? <==> e.kind.Some? && e.kind.value != ""
    ensures r.Some? ==> r.value.0 == TypeBadgeStyle(e.kind.value)
    ensures r.Some? ==> |r.value.1| == |e.kind.value| && r.value.1[1..] == e.kind.value[1..]
    ensures r.Some? ==> !IsLower(r.value.1[0]) && LowerChar(r.value.1[0]) == LowerChar(e.kind.value[0])
  {
    match e.kind
    case Some(t) => if t != "" then Some((TypeBadgeStyle(t), Capitalize(t))) else None
    case None => None
  }

  /** Every entry of the site's table has a badge: three "Work" ones and
      one "Volunteer". */
  lemma SiteTypeBadges()
    ensures TypeBadge(Isac) == Some((WorkBadge, "Work"))
    ensures TypeBadge(Gunungsari) == Some((WorkBadge, "Work"))
    ensures TypeBadge(Ngimbang) == Some((WorkBadge, "Work"))
    ensures TypeBadge(Volunteer) == Some((VolunteerBadge, "Volunteer"))
  {
    assert Capitalize("work") == "Work";
    assert Capitalize("volunteer") == "Volunteer";
  }
}
