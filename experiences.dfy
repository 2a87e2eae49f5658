/** The experience table and its queries (src/app/data/experiences.ts). */
module Experiences {
  import opened Wrappers
  import opened Seqs

  /** An experience. `kind` is the optional `type` field of the source and
      `featured` its optional flag, absent meaning false. The detail lines
      are display text that no query reads; `detailCount` keeps how many
      there are. */
  datatype Experience = Experience(
    id: string, title: string, company: string, startDate: string, endDate: string,
    kind: Option<string>, featured: bool, detailCount: nat)

  const Isac := Experience("isac-2024", "Expert Staff of Web Development",
    "ISAC 2024 (Information System Airlangga Competition)", "Jan 2024", "Nov 2024", Some("work"), false, 4)
  const Gunungsari := Experience("gunungsari", "Full Stack Developer", "Desa Wisata Gunungsari",
    "Jun 2024", "Sep 2024", Some("work"), false, 3)
  const Ngimbang := Experience("ngimbang", "Full Stack Developer", "Desa Wisata Ngimbang",
    "Apr 2023", "Nov 2023", Some("work"), false, 3)
  const Volunteer := Experience("volunteer-2024", "Volunteer Experience", "Various Organizations",
    "Jan 2024", "Present", Some("volunteer"), false, 2)

  /** The experience table, in declaration order. */
  const experiences: seq<Experience> := [Isac, Gunungsari, Ngimbang, Volunteer]

  /** `(exp) => exp.type === type`; `undefined` matches the entries
      without a type. */
  function OfKind(kind: Option<string>): Experience -> bool {
    (e: Experience) => e.kind == kind
  }

  /** `getExperiencesByType`: the entries of one type, in table order. */
  function GetExperiencesByType(kind: Option<string>): (r: seq<Experience>)
    ensures forall e :: e in r <==> e in experiences && e.kind == kind
    ensures IsSubseq(r, experiences)
  {
    FilterIsSubseq(experiences, OfKind(kind));
    Filter(experiences, OfKind(kind))
  }

  /** `getWorkExperiences`: the "work" entries, in table order. */
  function GetWorkExperiences(): (r: seq<Experience>)
    ensures r == GetExperiencesByType(Some("work"))
    ensures forall e :: e in r <==> e in experiences && e.kind == Some("work")
  {
    GetExperiencesByType(Some("work"))
  }

  /** `(exp) => exp.featured`. */
  function IsFeatured(e: Experience): bool { e.featured }

  /** `getFeaturedExperiences`: the entries whose `featured` is set. */
  function GetFeaturedExperiences(): (r: seq<Experience>)
    ensures forall e :: e in r <==> e in experiences && e.featured
    ensures IsSubseq(r, experiences)
  {
    FilterIsSubseq(experiences, IsFeatured);
    Filter(experiences, IsFeatured)
  }

  /** No entry of the table sets `featured`, so nothing is featured. */
  lemma NoFeaturedExperiences()
    ensures GetFeaturedExperiences() == []
  {
    FilterNone(experiences, IsFeatured);
  }

  /** With the table of the site, the three first entries are the "work"
      entries and the last one the only "volunteer" entry: the two queries
      split the table between them, in order. */
  lemma WorkAndVolunteerPartition()
    ensures GetWorkExperiences() == experiences[..3]
    ensures GetExperiencesByType(Some("volunteer")) == experiences[3..]
    ensures GetWorkExperiences() + GetExperiencesByType(Some("volunteer")) == experiences
  {
    WorkEntries();
    VolunteerEntries();
    assert experiences[..3] + experiences[3..] == experiences;
  }

  lemma WorkEntries()
    ensures GetWorkExperiences() == experiences[..3]
  {
    FilterSlice(experiences, OfKind(Some("work")), 0, 3);
  }

  lemma VolunteerEntries()
    ensures GetExperiencesByType(Some("volunteer")) == experiences[3..]
  {
    FilterSlice(experiences, OfKind(Some("volunteer")), 3, 4);
  }
}
