/** The interests and their queries (src/app/data/interests.ts). */
module Interests {
  import opened Wrappers
  import opened Seqs

  /** An interest. `category` and `priority` are optional fields of the
      source type. The description and the emoji icon are display text
      that no logic reads, so the model leaves them out. */
  datatype Interest = Interest(id: string, title: string, category: Option<string>, priority: Option<int>)

  const WebDevelopment := Interest("web-development", "Web Development", Some("technical"), Some(1))
  const MobileDevelopment := Interest("mobile-development", "Mobile Development", Some("technical"), Some(2))
  const MachineLearning := Interest("machine-learning", "Machine Learning", Some("technical"), Some(3))
  const CloudComputing := Interest("cloud-computing", "Cloud Computing", Some("technical"), Some(4))
  const OpenSource := Interest("open-source", "Open Source Contribution", Some("professional"), None)
  const UiUxDesign := Interest("ui-ux-design", "UI/UX Design", Some("creative"), None)

  /** `interests`, in declaration order. */
  const interests: seq<Interest> := [WebDevelopment, MobileDevelopment, MachineLearning, CloudComputing]

  /** `additionalInterests`, in declaration order. */
  const additionalInterests: seq<Interest> := [OpenSource, UiUxDesign]

  /** `[...interests, ...additionalInterests]`. */
  const allInterests: seq<Interest> := interests + additionalInterests

  /** `allInterests` lists the four main interests, then the two others. */
  lemma AllInterestsOrder()
    ensures |allInterests| == 6
    ensures allInterests[..4] == interests && allInterests[4..] == additionalInterests
  {
  }

  /** `(interest) => interest.category === category`; `undefined` matches
      the interests without a category. */
  function InInterestCategory(category: Option<string>): Interest -> bool {
    (i: Interest) => i.category == category
  }

  /** `getInterestsByCategory`: the interests of one category, in order. */
  function GetInterestsByCategory(category: Option<string>): (r: seq<Interest>)
    ensures forall i :: i in r <==> i in allInterests && i.category == category
    ensures IsSubseq(r, allInterests)
  {
    FilterIsSubseq(allInterests, InInterestCategory(category));
    Filter(allInterests, InInterestCategory(category))
  }

  /** `interest.priority || 999`: a missing priority, and a priority of 0,
      both sort as 999. */
  function EffectivePriority(i: Interest): int {
    match i.priority
    case Some(p) => if p != 0 then p else 999
    case None => 999
  }

  /** The default of `count` in `getPrioritizedInterests`. */
  const DefaultPrioritizedCount := 4

  /** `[...all].sort((a, b) => (a.priority || 999) - (b.priority || 999)).slice(0, count)`:
      the sort works on a copy, so `all` is not reordered. */
  function TopByPriority(all: seq<Interest>, count: int): (r: seq<Interest>)
    ensures |r| == SliceEnd(|all|, count)
    ensures 0 <= count ==> |r| <= count
    ensures SortedBy(r, EffectivePriority)
    ensures multiset(r) <= multiset(all)
    ensures forall x, y :: x in r && y in all && y !in r ==> EffectivePriority(x) <= EffectivePriority(y)
    ensures forall k :: IsPrefix(KeyClass(r, EffectivePriority, k), KeyClass(all, EffectivePriority, k))
    ensures forall a, b :: 0 <= a < |r| && 0 <= b < |r| && r[a].priority.None? && EffectivePriority(r[b]) < 999 ==> b < a
  {
    var r := TopBy(all, EffectivePriority, count);
    forall a, b | 0 <= a < |r| && 0 <= b < |r| && r[a].priority.None? && EffectivePriority(r[b]) < 999
      ensures b < a
    {
      if a <= b {
        assert false;
      }
    }
    r
  }

  /** `getPrioritizedInterests(count)` (`TopByPriority` states what it
      returns). */
  function GetPrioritizedInterests(count: int): seq<Interest> {
    TopByPriority(allInterests, count)
  }

  /** A list already ordered by effective priority keeps its order: the
      top `count` are its first `count`. */
  lemma TopOfSorted(all: seq<Interest>, count: nat)
    requires SortedBy(all, EffectivePriority) && count <= |all|
    ensures TopByPriority(all, count) == all[..count]
  {
    TopBySortedInput(all, EffectivePriority, count);
  }

  /** `allInterests` is already ordered by effective priority. */
  lemma AllInterestsSorted()
    ensures SortedBy(allInterests, EffectivePriority)
  {
  }

  /** With the table of the site, the default call returns the four
      technical interests, by priority 1 to 4. */
  lemma DefaultPrioritizedInterests()
    ensures GetPrioritizedInterests(DefaultPrioritizedCount) == interests
  {
    AllInterestsSorted();
    AllInterestsOrder();
    TopOfSorted(allInterests, 4);
  }
}
