/** The styling helpers of the about section (src/app/helper/about.ts):
    a theme per category with a fallback, the class strings built from a
    theme, the level classifiers, the experience-years label and the
    featured test. */
module AboutHelper {
  import opened Text
  import opened Bands
  import opened Categories
  import opened SkillModel
  import opened Skills

  /** `CategoryThemeColors`. */
  datatype Theme = Theme(primary: string, secondary: string, text: string, border: string, background: string)

  /** `CATEGORY_THEMES`, as a finite map from category id. */
  const CategoryThemes: map<string, Theme> := map[
    "frontend" := Theme("blue-500", "indigo-500", "blue-200", "blue-500/50", "blue-500/5"),
    "backend" := Theme("green-500", "emerald-500", "green-200", "green-500/50", "green-500/5"),
    "programming" := Theme("purple-500", "violet-500", "purple-200", "purple-500/50", "purple-500/5"),
    "database" := Theme("amber-500", "yellow-500", "amber-200", "amber-500/50", "amber-500/5"),
    "devops" := Theme("rose-500", "pink-500", "rose-200", "rose-500/50", "rose-500/5"),
    "tools" := Theme("cyan-500", "teal-500", "cyan-200", "cyan-500/50", "cyan-500/5"),
    "cloud" := Theme("sky-500", "blue-400", "sky-200", "sky-500/50", "sky-500/5"),
    "mobile" := Theme("orange-500", "red-500", "orange-200", "orange-500/50", "orange-500/5")
  ]

  /** `DEFAULT_CATEGORY`. */
  const DefaultCategory := "frontend"

  /** `CATEGORY_THEMES[categoryId] || CATEGORY_THEMES[DEFAULT_CATEGORY]`:
      every theme object is truthy, so a known id gets its own theme and any
      other id the default one. */
  function GetCategoryTheme(categoryId: string): (t: Theme)
    ensures categoryId in CategoryThemes ==> t == CategoryThemes[categoryId]
    ensures categoryId !in CategoryThemes ==> t == CategoryThemes[DefaultCategory]
    ensures t in CategoryThemes.Values
  {
    if categoryId in CategoryThemes then CategoryThemes[categoryId] else CategoryThemes[DefaultCategory]
  }

  /** Every category of the categories table has a theme of its own, except
      "fullstack" and "ui", which fall back to the default theme. */
  lemma ThemedCategories()
    ensures forall i :: 0 <= i < |categories| ==>
      (categories[i].id in CategoryThemes <==> categories[i].id != Fullstack.id && categories[i].id != UiUx.id)
  {
  }

  // ---------------------------------------------------------------------
  // Class strings built from the theme

  /** `getCategoryButtonStyle`. */
  function CategoryButtonStyle(categoryId: string): (r: string)
    ensures StartsWith(r, "bg-gradient-to-r from-" + GetCategoryTheme(categoryId).primary)
  {
    var t := GetCategoryTheme(categoryId);
    var head := "bg-gradient-to-r from-" + t.primary;
    var rest := "/30 to-" + t.secondary + "/30 text-" + t.text
      + " border border-" + t.border + " shadow-lg shadow-" + t.primary + "/10";
    StartsWithConcat(head, rest);
    head + rest
  }

  /** `getCategoryColor`: the colour name of the primary shade, the text
      before its first `-`. */
  function CategoryColor(categoryId: string): (r: string)
    ensures |r| <= |GetCategoryTheme(categoryId).primary| && r == GetCategoryTheme(categoryId).primary[..|r|]
    ensures '-' !in r
    ensures |r| < |GetCategoryTheme(categoryId).primary| ==> GetCategoryTheme(categoryId).primary[|r|] == '-'
  {
    SplitHead(GetCategoryTheme(categoryId).primary, '-')
  }

  /** `getCategoryGradient`. */
  function CategoryGradient(categoryId: string): (r: string)
    ensures StartsWith(r, "bg-gradient-to-r from-" + GetCategoryTheme(categoryId).primary)
  {
    var t := GetCategoryTheme(categoryId);
    StartsWithConcat("bg-gradient-to-r from-" + t.primary, " to-" + t.secondary);
    "bg-gradient-to-r from-" + t.primary + " to-" + t.secondary
  }

  /** `getCategoryGradientBackground`. */
  function CategoryGradientBackground(categoryId: string): (r: string)
    ensures StartsWith(r, "from-" + GetCategoryTheme(categoryId).primary)
  {
    var t := GetCategoryTheme(categoryId);
    StartsWithConcat("from-" + t.primary, " to-" + t.secondary);
    "from-" + t.primary + " to-" + t.secondary
  }

  /** `getSkillCardStyle`. */
  function SkillCardStyle(categoryId: string): (r: string)
    ensures StartsWith(r, "border-" + GetCategoryTheme(categoryId).border)
  {
    var t := GetCategoryTheme(categoryId);
    StartsWithConcat("border-" + t.border, " bg-" + t.background + " text-" + t.text);
    "border-" + t.border + " bg-" + t.background + " text-" + t.text
  }

  /** `getBorderColor`. */
  function BorderColor(categoryId: string): (r: string)
    ensures StartsWith(r, "border-") && r[7..] == GetCategoryTheme(categoryId).border
  {
    StartsWithConcat("border-", GetCategoryTheme(categoryId).border);
    "border-" + GetCategoryTheme(categoryId).border
  }

  /** `getBackgroundGradient`. */
  function BackgroundGradient(categoryId: string): (r: string)
    ensures StartsWith(r, "from-" + GetCategoryTheme(categoryId).primary + "/10")
  {
    var t := GetCategoryTheme(categoryId);
    StartsWithConcat("from-" + t.primary + "/10", " to-" + t.secondary + "/10");
    "from-" + t.primary + "/10 to-" + t.secondary + "/10"
  }

  /** `getSkillColor`: by the theme of the skill's category. */
  function SkillColor(s: Skill): (r: string)
    ensures StartsWith(r, "text-" + GetCategoryTheme(s.category.id).text)
  {
    var t := GetCategoryTheme(s.category.id);
    StartsWithConcat("text-" + t.text, " hover:bg-" + t.primary + "/10");
    "text-" + t.text + " hover:bg-" + t.primary + "/10"
  }

  /** An id without a theme is styled exactly like "frontend" by every
      builder. */
  lemma UnknownCategoryFallsBack(categoryId: string)
    requires categoryId !in CategoryThemes
    ensures CategoryButtonStyle(categoryId) == CategoryButtonStyle(DefaultCategory)
    ensures CategoryColor(categoryId) == CategoryColor(DefaultCategory)
    ensures CategoryGradient(categoryId) == CategoryGradient(DefaultCategory)
    ensures CategoryGradientBackground(categoryId) == CategoryGradientBackground(DefaultCategory)
    ensures SkillCardStyle(categoryId) == SkillCardStyle(DefaultCategory)
    ensures BorderColor(categoryId) == BorderColor(DefaultCategory)
    ensures BackgroundGradient(categoryId) == BackgroundGradient(DefaultCategory)
  {
  }

  /** The border class is "border-" and the theme's border shade, so two
      categories share a border class only when their themes share a
      border shade. */
  lemma BorderColorOfTheme(a: string, b: string)
    ensures BorderColor(a)[..7] == "border-" && BorderColor(a)[7..] == GetCategoryTheme(a).border
    ensures BorderColor(a) == BorderColor(b) <==> GetCategoryTheme(a).border == GetCategoryTheme(b).border
  {
    var x, y := BorderColor(a), BorderColor(b);
    if x == y {
      assert x[7..] == y[7..];
    }
  }

  /** The colour name for the default theme is "blue". */
  lemma DefaultCategoryColor()
    ensures CategoryColor(DefaultCategory) == "blue"
  {
    var p := GetCategoryTheme(DefaultCategory).primary;
    assert p == "blue-500";
    var r := CategoryColor(DefaultCategory);
    assert p[4] == '-';
    assert r == p[..4];
  }

  // ---------------------------------------------------------------------
  // Level classifiers

  /** The thresholds and colours of `getSkillLevelColor`, the last colour
      being the fallback. */
  const LevelColorThresholds: seq<int> := [90, 80, 70, 60, 50, 40]
  const LevelColors: seq<string> :=
    ["bg-emerald-500", "bg-green-500", "bg-lime-500", "bg-yellow-500", "bg-amber-500", "bg-orange-500", "bg-red-500"]

  /** `getSkillLevelColor`. */
  function SkillLevelColor(level: int): (r: string)
    ensures r in LevelColors
  {
    if level >= 90 then "bg-emerald-500"
    else if level >= 80 then "bg-green-500"
    else if level >= 70 then "bg-lime-500"
    else if level >= 60 then "bg-yellow-500"
    else if level >= 50 then "bg-amber-500"
    else if level >= 40 then "bg-orange-500"
    else "bg-red-500"
  }

  /** `getSkillLevelColor` gives the colour of the band of the level:
      emerald from 90, green from 80, lime from 70, yellow from 60, amber
      from 50, orange from 40 and red below. */
  lemma SkillLevelColorIsBand(level: int)
    ensures SkillLevelColor(level) == LevelColors[Band(LevelColorThresholds, level)]
  {
    var t := LevelColorThresholds;
    assert Descending(t);
    if level >= 90 { BandBetween(t, level, 0); }
    else if level >= 80 { BandBetween(t, level, 1); }
    else if level >= 70 { BandBetween(t, level, 2); }
    else if level >= 60 { BandBetween(t, level, 3); }
    else if level >= 50 { BandBetween(t, level, 4); }
    else if level >= 40 { BandBetween(t, level, 5); }
    else { BandBetween(t, level, 6); }
  }

  /** The thresholds and labels of `getSkillLevelLabel`. */
  const LevelLabelThresholds: seq<int> := [90, 80, 65, 50, 30]
  const LevelLabels: seq<string> := ["Expert", "Advanced", "Proficient", "Intermediate", "Basic", "Beginner"]

  /** `getSkillLevelLabel`. */
  function SkillLevelLabel(level: int): (r: string)
    ensures r in LevelLabels
  {
    if level >= 90 then "Expert"
    else if level >= 80 then "Advanced"
    else if level >= 65 then "Proficient"
    else if level >= 50 then "Intermediate"
    else if level >= 30 then "Basic"
    else "Beginner"
  }

  /** The rank of a label, "Beginner" lowest. */
  function LabelRank(name: string): nat {
    if name == "Expert" then 5
    else if name == "Advanced" then 4
    else if name == "Proficient" then 3
    else if name == "Intermediate" then 2
    else if name == "Basic" then 1
    else 0
  }

  /** A higher level never gets a lower label. */
  lemma SkillLevelLabelMonotone(a: int, b: int)
    requires a <= b
    ensures LabelRank(SkillLevelLabel(a)) <= LabelRank(SkillLevelLabel(b))
  {
    BandMonotone(LevelLabelThresholds, a, b);
    SkillLevelLabelIsBand(a);
    SkillLevelLabelIsBand(b);
  }

  /** `getSkillLevelLabel` gives the label of the band of the level:
      Expert from 90, Advanced from 80, Proficient from 65, Intermediate
      from 50, Basic from 30 and Beginner below. */
  lemma SkillLevelLabelIsBand(level: int)
    ensures SkillLevelLabel(level) == LevelLabels[Band(LevelLabelThresholds, level)]
  {
    var t := LevelLabelThresholds;
    assert Descending(t);
    if level >= 90 { BandBetween(t, level, 0); }
    else if level >= 80 { BandBetween(t, level, 1); }
    else if level >= 65 { BandBetween(t, level, 2); }
    else if level >= 50 { BandBetween(t, level, 3); }
    else if level >= 30 { BandBetween(t, level, 4); }
    else { BandBetween(t, level, 5); }
  }

  /** The badges of the bands that do not depend on the theme. */
  const NeutralBadges: seq<string> := [
    "bg-emerald-500/20 text-emerald-300 border border-emerald-500/30",
    "bg-green-500/20 text-green-300 border border-green-500/30",
    "bg-gray-700/50 text-gray-300 border border-gray-600/50",
    "bg-gray-800/50 text-gray-400 border border-gray-700/50"
  ]

  /** The badge of the [70, 80) band, in the colours of a theme: a
      background of its primary shade at 20%. */
  function ThemeBadge(t: Theme): (r: string)
    ensures StartsWith(r, "bg-" + t.primary + "/20")
  {
    var head := "bg-" + t.primary + "/20";
    var rest := " text-" + t.text + " border border-" + t.border;
    StartsWithConcat(head, rest);
    head + rest
  }

  /** `getSkillBadgeStyle`: by bands 90, 80, 70 and 50; only the band
      [70, 80) uses the category theme. */
  function SkillBadgeStyle(s: Skill): (r: string)
    ensures 70 <= s.level < 80 ==> StartsWith(r, "bg-" + GetCategoryTheme(s.category.id).primary + "/20")
    ensures !(70 <= s.level < 80) ==> r in NeutralBadges
  {
    var level := s.level;
    var t := GetCategoryTheme(s.category.id);
    if level >= 90 then "bg-emerald-500/20 text-emerald-300 border border-emerald-500/30"
    else if level >= 80 then "bg-green-500/20 text-green-300 border border-green-500/30"
    else if level >= 70 then ThemeBadge(t)
    else if level >= 50 then "bg-gray-700/50 text-gray-300 border border-gray-600/50"
    else "bg-gray-800/50 text-gray-400 border border-gray-700/50"
  }

  /** The thresholds of `getSkillBadgeStyle`. */
  const BadgeThresholds: seq<int> := [90, 80, 70, 50]

  /** The badge of band `i` of `BadgeThresholds` for a skill whose theme is
      `t`: the band [70, 80) takes the theme, the others a fixed badge. */
  function BandBadge(i: nat, t: Theme): string
    requires i < 5
  {
    if i < 2 then NeutralBadges[i] else if i == 2 then ThemeBadge(t) else NeutralBadges[i - 1]
  }

  /** `getSkillBadgeStyle` gives the badge of the band of the level:
      emerald from 90, green from 80, the category theme from 70, dark
      gray from 50 and darker gray below. */
  lemma SkillBadgeStyleIsBand(s: Skill)
    ensures Band(BadgeThresholds, s.level) < 5
    ensures SkillBadgeStyle(s) == BandBadge(Band(BadgeThresholds, s.level), GetCategoryTheme(s.category.id))
  {
    var t := BadgeThresholds;
    var level := s.level;
    assert Descending(t);
    if level >= 90 { BandBetween(t, level, 0); }
    else if level >= 80 { BandBetween(t, level, 1); }
    else if level >= 70 { BandBetween(t, level, 2); }
    else if level >= 50 { BandBetween(t, level, 3); }
    else { BandBetween(t, level, 4); }
  }

  /** Two skills of the same level get the same badge unless the level is
      in [70, 80), where the badge follows each skill's theme: there two
      categories with different primary shades get different badges. */
  lemma BadgeDependsOnThemeOnlyIn70s(a: Skill, b: Skill)
    requires a.level == b.level
    ensures !(70 <= a.level < 80) ==> SkillBadgeStyle(a) == SkillBadgeStyle(b)
    ensures 70 <= a.level < 80 && GetCategoryTheme(a.category.id).primary != GetCategoryTheme(b.category.id).primary
      ==> SkillBadgeStyle(a) != SkillBadgeStyle(b)
  {
    if 70 <= a.level < 80 {
      var ta, tb := GetCategoryTheme(a.category.id), GetCategoryTheme(b.category.id);
      var x, y := SkillBadgeStyle(a), SkillBadgeStyle(b);
      if ta.primary != tb.primary && x == y {
        PrimaryShadesHaveNoSlash();
        PrimaryShadeDecides(ta, tb);
      }
    }
  }

  /** No primary shade of the theme table contains a `/`. */
  lemma PrimaryShadesHaveNoSlash()
    ensures forall t :: t in CategoryThemes.Values ==> '/' !in t.primary
  {
  }

  /** The badge of the [70, 80) band starts with "bg-", the primary shade
      and "/": without a `/` inside the shades, different shades give
      different badges. */
  lemma PrimaryShadeDecides(ta: Theme, tb: Theme)
    requires '/' !in ta.primary && '/' !in tb.primary
    requires ta.primary != tb.primary
    ensures ThemeBadge(ta) != ThemeBadge(tb)
  {
    var x, y := ThemeBadge(ta), ThemeBadge(tb);
    var hx, hy := "bg-" + ta.primary + "/20", "bg-" + tb.primary + "/20";
    assert x[..|hx|] == hx && y[..|hy|] == hy;
    var i := 3 + |ta.primary|;
    var j := 3 + |tb.primary|;
    if |ta.primary| == |tb.primary| {
      assert x[3..i] == ta.primary && y[3..i] == tb.primary;
    } else if |ta.primary| < |tb.primary| {
      assert x[i] == '/' && y[i] == tb.primary[|ta.primary|];
    } else {
      assert y[j] == '/' && x[j] == ta.primary[|tb.primary|];
    }
  }

  // ---------------------------------------------------------------------
  // Experience years and featured skills

  /** `getExperienceYears`: the years are any number; `numberText` is the
      host's rendering of a number in a template string. */
  function ExperienceYears(years: real, numberText: real -> string): (r: string)
    ensures years < 1.0 <==> r == "< 1 year"
    ensures years == 1.0 <==> r == "1 year"
    ensures years > 1.0 ==> |r| >= 6 && r[|r| - 6..] == " years" && r[..|r| - 6] == numberText(years)
  {
    if years < 1.0 then "< 1 year"
    else if years == 1.0 then "1 year"
    else
      var r := numberText(years) + " years";
      assert r[|r| - 6..] == " years";
      assert "< 1 year"[2..] != " years" && "1 year"[0..] != " years";
      r
  }

  /** A whole number of years above one, which the host renders as its
      decimal digits, reads back as that number. */
  lemma WholeExperienceYears(n: nat, numberText: real -> string)
    requires n > 1 && numberText(n as real) == ToRadix(n, 10)
    ensures var r := ExperienceYears(n as real, numberText);
      && |r| > 6 && r[|r| - 6..] == " years"
      && IsDigitString(r[..|r| - 6], 10) && ParseRadix(r[..|r| - 6], 10) == n
  {
    RadixRoundTrip(n, 10);
  }

  /** `isSkillFeatured`: a level of at least 85, or the flag. */
  predicate IsSkillFeatured(s: Skill)
    ensures s.featured ==> IsSkillFeatured(s)
    ensures !s.featured ==> (IsSkillFeatured(s) <==> s.level >= 85)
  {
    s.level >= 85 || s.featured
  }

  /** No skill of the table sets `featured`, so a table skill is featured
      exactly when its level is at least 85. */
  lemma FeaturedTableSkills()
    ensures forall s :: s in skills ==> (IsSkillFeatured(s) <==> s.level >= 85)
  {
    NoFeaturedSkills();
  }
}
