/** The education table and its queries (src/app/data/education.ts). */
module Education {
  import opened Wrappers
  import opened Seqs
  import opened Text

  /** An education entry. `field`, `location` and `achievements` are
      optional in the source type; an achievement is kept as its text. The
      GPA and description are display text that no logic reads. */
  datatype Education = Education(
    id: string, institution: string, degree: string, field: Option<string>, location: Option<string>,
    startDate: string, endDate: string, isOngoing: bool, achievements: Option<seq<string>>)

  const Unair := Education("unair", "Airlangga University (UNAIR)", "Bachelor's Degree",
    Some("Information Systems"), Some("Surabaya, Indonesia"), "Aug 2022", "Jun 2026 (Expected)", true,
    Some(["Designed and developed full-stack websites using Laravel or Next.js",
          "Developed mobile applications using Flutter"]))
  const Sman5 := Education("sman5", "SMAN 5 Surabaya", "High School Diploma",
    Some("Science Program"), Some("Surabaya, Indonesia"), "Jul 2019", "May 2021", false,
    Some(["Gold Medal in Taekwondo at KONI CUP 2021"]))
  const Smpn3 := Education("smpn3", "SMPN 3 Surabaya", "Junior High School",
    None, Some("Surabaya, Indonesia"), "Jun 2017", "Jun 2019", false, None)

  /** `educations`, in declaration order. */
  const educations: seq<Education> := [Unair, Sman5, Smpn3]

  function HasId(id: string): Education -> bool {
    (e: Education) => e.id == id
  }

  /** `getEducationById`: the first entry with that id, or nothing. */
  function GetEducationById(id: string): (r: Option<Education>)
    ensures r.None? <==> forall i :: 0 <= i < |educations| ==> educations[i].id != id
    ensures r.Some? ==> r.value in educations && r.value.id == id
  {
    Find(educations, HasId(id))
  }

  /** `edu.endDate === "Present" || edu.endDate.includes("Expected")`. */
  predicate IsCurrent(e: Education) {
    e.endDate == "Present" || Contains(e.endDate, "Expected")
  }

  /** `getCurrentEducation`: the first entry still under way, or nothing
      when none is. */
  function GetCurrentEducation(): (r: Option<Education>)
    ensures r.None? <==> forall i :: 0 <= i < |educations| ==> !IsCurrent(educations[i])
    ensures r.Some? ==> r.value in educations && IsCurrent(r.value)
  {
    Find(educations, IsCurrent)
  }

  /** The entry `getCurrentEducation` returns is the first one under way. */
  lemma CurrentIsFirst(k: int)
    requires 0 <= k < |educations| && IsCurrent(educations[k])
    requires forall i :: 0 <= i < k ==> !IsCurrent(educations[i])
    ensures GetCurrentEducation() == Some(educations[k])
  {
    FindAt(educations, IsCurrent, k);
  }

  /** Each id of the table finds its own entry. */
  lemma EducationLookupRoundTrip(k: int)
    requires 0 <= k < |educations|
    ensures GetEducationById(educations[k].id) == Some(educations[k])
  {
    FindAt(educations, HasId(educations[k].id), k);
  }

  /** With the table of the site, the current entry is the university
      one, whose end date reads "Jun 2026 (Expected)". */
  lemma CurrentIsUnair()
    ensures GetCurrentEducation() == Some(Unair)
  {
    UnairIsCurrent();
    assert educations[0] == Unair;
    CurrentIsFirst(0);
  }

  lemma UnairIsCurrent()
    ensures IsCurrent(Unair)
  {
    ContainsAt(Unair.endDate, "Expected", 10);
  }
}
