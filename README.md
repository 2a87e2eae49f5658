# A verified model of the portfolio site's data and component logic

The site is a single-page developer portfolio. Its behaviour beyond markup
lives in two places, and this project models both in Dafny.

The **data layer** (`src/app/data/*.ts`) holds constant tables and the
queries over them. The tables are categories, skills, contacts, interests,
projects, experiences and education. The queries are lookups by id,
filters by category or type, sorts on a copy by level or priority, and the
grouping of skills by category. The styling helpers in
`src/app/helper/about.ts` add threshold classifiers and a theme table with
a fallback.

The **components** (`src/app/components/*.tsx`) add these pieces:

- the navigation bar's scroll scan and menu state;
- the filters and selections of the skills, projects, experience and
  education panels;
- the particle systems on the canvas backgrounds: the hero's wrapping
  particles and falling stars; the bouncing particles of the about,
  skills and contact sections; the circuit board of the projects section.

Each data module is a set of functions over the tables, with lemmas about
those tables. Each component whose state the source updates in place is a
class, and its methods are proved against specification functions:

- `Navbar.NavbarState`, `AboutContent.SkillFilter`,
  `ExperienceContent.Timeline` and `AboutSection.TabState`;
- the particle layers `Hero.ParticleLayer` and `Hero.StarLayer`;
- `SkillsSection.ParticleField`, `AboutSection.ParticleField` and
  `ContactSection.NetworkCanvas`.

The loops of the source are methods with loop invariants:

- `Navbar.NavbarState.HandleScroll`;
- `SkillModel.GroupSkills`;
- `ProjectsSection.CreateNodes` and `ProjectsSection.LinkNode`;
- `AboutSection.GridDots`;
- `Motion.ConnectionLines`;
- the creation and frame loops of the particle classes.

Common pieces are shared modules:

- `Seqs`: filter, find, stable insertion sort, slice and dedup;
- `Text`: `includes`, ASCII case mapping, `split`, `toString(16)` and
  `padStart`;
- `Records`: a JavaScript object as an ordered list of properties;
- `Bands`: the shape of every threshold classifier;
- `Motion`: the bounce and wrap steps and line alphas;
- `Grid`: column-major lattices.

Modelling conventions:

- **Random draws.** A `Math.random()` value is a supplied real in
  `[0, 1)`, in one of three encodings:
  - Where the source draws a fixed number of values per item, as the
    particle and point constructors do, the values come from
    `draw: nat -> real` (or `draws: nat -> ...`), indexed in the order the
    source draws them.
  - In each frame of the Hero star layer, every star gets its own record
    `draws(k)` of type `StarDraws`, holding the tail, x, size and speed
    values. A star that is not respawned uses only the tail value.
  - In the Projects circuit board, a draw that depends on a condition is
    keyed by what it decides. `keep(d)` is the draw for grid point `d`.
    `link(i, j)` is the draw for the pair of nodes `i` and `j`, and the
    source takes it only for a pair within range. So these draws are not
    one stream in call order.
- **Distances.** `Math.sqrt` distances are supplied as a function of the
  two particles.
- **Window and DOM sizes.** The window and container sizes and the
  element boxes are inputs.
- **Numbers.** Coordinates, speeds and opacities are `real`.

## Model

| member | source | states |
|---|---|---|
| Categories.GetCategoryById | src/app/data/categories.ts:90-92 | the result is a table entry with the asked id, and there is none exactly when no entry has that id |
| Categories.GetAllCategories | src/app/data/categories.ts:95-97 | the table unchanged: ten categories with distinct ids, entry by entry in declaration order |
| Categories.CategoryIdsDistinct | src/app/data/categories.ts:16-87 | no two categories of the table share an id |
| Categories.LookupRoundTrip | src/app/data/categories.ts:16-92 | looking up the id of any table entry returns that entry |
| Categories.FilterWithSkills | src/app/data/categories.ts:16-87 | a test true exactly for the six categories that have skills keeps frontend, backend, mobile, database, devops and programming, in table order |
| Categories.FilterById | src/app/data/categories.ts:16-87 | a test on ids true for frontend, backend, database, devops and programming and false for the other five keeps those five categories, in table order |
| Categories.TitleFirstWords | src/app/data/categories.ts:16-87 | four of those titles are one word; "Programming Languages" begins with the word "Programming" |
| Skills.GetSkillById | src/app/data/skills.ts:223-225 | the result is a skill of the table with the asked id, and none exactly when no skill has it |
| Skills.SkillIdsAreDistinct | src/app/data/skills.ts:6-220 | the 24 skill ids are pairwise distinct |
| Skills.SkillLookupRoundTrip | src/app/data/skills.ts:6-225 | looking up the id of any skill returns that skill |
| Skills.SkillsResolve | src/app/data/skills.ts:6-225 | every skill of the table is found again by its id |
| Skills.CategoryRuns | src/app/data/skills.ts:6-220 | the table lists programming, frontend, backend, database, mobile and devops skills as consecutive runs |
| Skills.CategoriesResolve | src/app/data/skills.ts:14-218 | every `getCategoryById(...) as Category` in the table finds the category the skill carries |
| Skills.GetSkillsWithCategories | src/app/data/skills.ts:228-230 | the 24 skills of the table, entry by entry in table order, each carrying the category its id resolves to |
| Skills.GetSkillsByCategory | src/app/data/skills.ts:233-235 | exactly the skills whose category id is the argument, as an order-preserving subsequence of the table |
| Skills.SkillsByCategoryTable | src/app/data/skills.ts:233-235 | each category with skills gets its own run of the table |
| Skills.EmptyCategories | src/app/data/skills.ts:233-235 | fullstack, cloud, ui and tools have no skills |
| Skills.GetFeaturedSkills | src/app/data/skills.ts:264-266 | exactly the skills whose `featured` flag is set |
| Skills.NoFeaturedSkills | src/app/data/skills.ts:264-266 | no entry sets the flag, so the result is empty |
| Skills.GetSkillsGroupedByCategory | src/app/data/skills.ts:243-261 | the grouping loop run on the skills table and `getAllCategories()` |
| Skills.HasSkillsTable | src/app/data/skills.ts:252 | which categories pass the `categorySkills.length > 0` test: the six with skills |
| Skills.CategoriesWithSkills | src/app/data/skills.ts:252 | the categories that get a group, in category-table order |
| Skills.GroupedSkillsKeys | src/app/data/skills.ts:243-261 | the grouped object has one property each for frontend, backend, mobile, database, devops and programming, in that order, and no others |
| Skills.EverySkillGrouped | src/app/data/skills.ts:243-261 | every skill is listed under its own category's property, whose skills are `getSkillsByCategory` of that id |
| SkillModel.TopByLevel | src/app/data/skills.ts:238-240 | `getTopSkills`: `min(count, n)` skills (none for a negative count past the start), by non-increasing level, drawn from the input without duplication, each at least as high as any left out, and ties in input order |
| SkillModel.GroupSkills | src/app/data/skills.ts:243-261 | the `forEach` that fills `result` computes the grouping of the specification |
| SkillModel.HasSkillsIff | src/app/data/skills.ts:250-252 | the length test holds exactly when some skill belongs to the category |
| SkillModel.GroupedKeysFromCategories | src/app/data/skills.ts:247-255 | every property is named by a category id |
| SkillModel.GroupedMissing | src/app/data/skills.ts:247-255 | an id naming no category has no property |
| SkillModel.GroupedKeys | src/app/data/skills.ts:247-255 | with distinct category ids, every key occurs once and the keys are the ids of the categories with skills, in order |
| SkillModel.GroupedValues | src/app/data/skills.ts:247-255 | each category with skills maps to itself and its skills in table order; one without skills has no property |
| Records.Get | src/app/data/skills.ts:253 | reading a property is undefined exactly when the key is absent |
| Records.Assign | src/app/data/skills.ts:253 | assigning a property makes it read back the value, leaves other keys alone, keeps an existing key's place, appends a new key and keeps keys unique |
| Records.GetAt | src/app/data/skills.ts:253 | in an object with unique keys each property reads back its own value |
| Contacts.SortByPriority | src/app/data/contacts.ts:100 | the sort is a permutation, ordered by `priority \|\| 99`, and stable (each priority class keeps its order) |
| Contacts.GetContactsByCategory | src/app/data/contacts.ts:97-100 | exactly the contacts of the category, a permutation of the filtered table sorted by effective priority, ties in table order |
| Contacts.GetPrimaryContacts | src/app/data/contacts.ts:103-108 | without a limit or with 0 all eight contacts sorted; with another limit the slice of that length; always sorted, drawn from the table, each kept contact at most as high in priority as any dropped one, and stable |
| Interests.AllInterestsOrder | src/app/data/interests.ts:64 | `allInterests` is the four main interests followed by the two others |
| Interests.GetInterestsByCategory | src/app/data/interests.ts:67-71 | exactly the interests of that category, in order, as a subsequence of `allInterests` |
| Interests.TopByPriority | src/app/data/interests.ts:73-77 | at most `count` entries, sorted by `priority \|\| 999`, from the input, each kept one no later in priority than a dropped one, stable, and entries without a priority after every entry below 999 |
| Interests.TopOfSorted | src/app/data/interests.ts:73-77 | a list already in priority order is simply cut to the count |
| Interests.AllInterestsSorted | src/app/data/interests.ts:4-62 | `allInterests` is already in effective-priority order |
| Interests.DefaultPrioritizedInterests | src/app/data/interests.ts:4-41 | the default call returns the four technical interests, in order |
| Education.GetEducationById | src/app/data/education.ts:59-61 | the result is an entry with that id, and none exactly when no entry has it |
| Education.GetCurrentEducation | src/app/data/education.ts:63-67 | the result is an entry whose end date is "Present" or contains "Expected", and none exactly when no entry is under way |
| Education.CurrentIsFirst | src/app/data/education.ts:63-67 | the entry returned is the first one under way |
| Education.EducationLookupRoundTrip | src/app/data/education.ts:3-61 | each id of the table finds its own entry |
| Education.CurrentIsUnair | src/app/data/education.ts:4-11 | with the table of the site the current entry is the university one |
| Education.UnairIsCurrent | src/app/data/education.ts:4-11 | the university entry's end date "Jun 2026 (Expected)" counts as under way |
| Experiences.GetExperiencesByType | src/app/data/experiences.ts:106-108 | exactly the entries of that type, in table order |
| Experiences.GetWorkExperiences | src/app/data/experiences.ts:110-112 | the same list as `getExperiencesByType("work")`: exactly the work entries |
| Experiences.GetFeaturedExperiences | src/app/data/experiences.ts:114-116 | exactly the entries with `featured` set, in order |
| Experiences.NoFeaturedExperiences | src/app/data/experiences.ts:3-116 | no entry sets the flag, so the result is empty |
| Experiences.WorkAndVolunteerPartition | src/app/data/experiences.ts:3-112 | the work entries then the volunteer entries make up the whole table |
| ProjectModel.ProjectById | src/app/data/projects.ts:164-166 | the result is a project with that id, and none exactly when no project has it |
| ProjectModel.ProjectsByCategory | src/app/data/projects.ts:168-170 | exactly the projects of that category id, as an order-preserving subsequence |
| ProjectModel.ProjectsBySkill | src/app/data/projects.ts:172-176 | exactly the projects with a skills list holding a skill of that id; a project without a list never matches |
| ProjectModel.ProjectByIdRoundTrip | src/app/data/projects.ts:164-166 | with distinct ids, each project's id finds that project |
| Projects.ProjectTable | src/app/data/projects.ts:5-162 | the table has eleven projects |
| Projects.TableIdsDistinct | src/app/data/projects.ts:5-162 | no two projects share an id, whatever the display texts |
| Projects.ProjectLookupRoundTrip | src/app/data/projects.ts:5-166 | `getProjectById` on the id of any project finds that project |
| Projects.TableCategories | src/app/data/projects.ts:5-162 | every project is frontend, backend, fullstack or mobile |
| Projects.ProjectCategoriesResolve | src/app/data/projects.ts:5-162 | every `getCategoryById(...)!` of the table finds the category the project carries |
| Projects.TableSkills | src/app/data/projects.ts:5-162 | every project has a skills list, drawn from the skills the table names |
| Projects.UsedSkillsInTable | src/app/data/projects.ts:5-162 | every skill the project table names is an entry of the skills table |
| Projects.TableSkillsResolve | src/app/data/projects.ts:5-162 | every `getSkillById(...)!` of the table finds the skill the project lists |
| AboutHelper.GetCategoryTheme | src/app/helper/about.ts:79-84 | a known id gets its own theme, any other id the "frontend" theme |
| AboutHelper.CategoryButtonStyle | src/app/helper/about.ts:89-95 | the class starts with the gradient from the primary shade of the category's theme (the "frontend" theme for an unknown id) |
| AboutHelper.ThemedCategories | src/app/helper/about.ts:19-77 | which categories of the table have a theme of their own |
| AboutHelper.CategoryColor | src/app/helper/about.ts:97-100 | the theme's primary shade up to its first '-' |
| AboutHelper.CategoryGradient | src/app/helper/about.ts:105-111 | the class starts with the gradient from the primary shade of the category's theme |
| AboutHelper.CategoryGradientBackground | src/app/helper/about.ts:113-119 | the class starts at the primary shade of the category's theme |
| AboutHelper.SkillCardStyle | src/app/helper/about.ts:121-127 | the class starts with the border shade of the category's theme |
| AboutHelper.BorderColor | src/app/helper/about.ts:129-132 | the class is "border-" followed by exactly the theme's border shade |
| AboutHelper.BackgroundGradient | src/app/helper/about.ts:137-143 | the class starts at the primary shade of the category's theme at 10% |
| AboutHelper.SkillColor | src/app/helper/about.ts:145-151 | the class starts with the text shade of the theme of the skill's category |
| AboutHelper.DefaultCategoryColor | src/app/helper/about.ts:79-100 | the colour of the default theme is "blue" |
| AboutHelper.SkillLevelColor | src/app/helper/about.ts:153-164 | the colour is always one of the seven band colours |
| AboutHelper.UnknownCategoryFallsBack | src/app/helper/about.ts:82-140 | an id without a theme is styled exactly like "frontend" by every helper |
| AboutHelper.BorderColorOfTheme | src/app/helper/about.ts:129-132 | the border class is "border-" then the theme's border shade, so two ids share it exactly when their themes share the shade |
| AboutHelper.SkillLevelColorIsBand | src/app/helper/about.ts:153-161 | the colour is that of the band the level falls in, for thresholds 90, 80, 70, 60, 50 and 40 |
| AboutHelper.SkillLevelLabel | src/app/helper/about.ts:166-177 | the label is always one of the six level names |
| AboutHelper.SkillLevelLabelIsBand | src/app/helper/about.ts:166-173 | the label is that of the band, for thresholds 90, 80, 65, 50 and 30 |
| AboutHelper.ThemeBadge | src/app/helper/about.ts:187 | the badge of a theme starts with a background of its primary shade at 20% |
| AboutHelper.SkillBadgeStyle | src/app/helper/about.ts:179-195 | in [70, 80) the badge starts with the primary shade of the skill's theme at 20%; at any other level it is one of four fixed badges |
| AboutHelper.SkillBadgeStyleIsBand | src/app/helper/about.ts:179-195 | the badge is that of the band of the level for thresholds 90, 80, 70 and 50: emerald, green, the skill's theme, dark gray, darker gray |
| AboutHelper.SkillLevelLabelMonotone | src/app/helper/about.ts:166-173 | a higher level never gets a lower label |
| AboutHelper.BadgeDependsOnThemeOnlyIn70s | src/app/helper/about.ts:179-192 | skills of equal level get the same badge outside [70, 80), and different badges there when their primary shades differ |
| AboutHelper.PrimaryShadesHaveNoSlash | src/app/helper/about.ts:19-77 | no primary shade of the theme table contains '/' |
| AboutHelper.PrimaryShadeDecides | src/app/helper/about.ts:187 | badges built from different slash-free primary shades differ |
| AboutHelper.ExperienceYears | src/app/helper/about.ts:197-201 | for any number of years: "< 1 year" exactly below one, "1 year" exactly at one, and above one the host's text for the number followed by " years" |
| AboutHelper.WholeExperienceYears | src/app/helper/about.ts:197-201 | for a whole number above one the label is its decimal digits, which read back as the number, followed by " years" |
| AboutHelper.FeaturedTableSkills | src/app/helper/about.ts:206-208 | no table skill sets the flag, so a table skill is featured exactly when its level is at least 85 |
| AboutHelper.IsSkillFeatured | src/app/helper/about.ts:206-208 | a flagged skill is featured at any level; an unflagged one exactly from level 85 |
| Bands.Band | src/app/helper/about.ts:153-173 | the band is the first threshold the level reaches, after every threshold it is below |
| Bands.BandBetween | src/app/helper/about.ts:153-173 | with descending thresholds the band is exactly the one whose bounds enclose the level |
| Bands.BandMonotone | src/app/helper/about.ts:153-173 | a higher level never lands in a later band |
| Navbar.NavSectionIds | src/app/components/Navbar.tsx:14-20 | the scan visits home, about, skills, projects and contact, in that order |
| Navbar.FirstMatch | src/app/components/Navbar.tsx:30-41 | the index found is a section containing the position, with none before it; none is found exactly when no section contains it |
| Navbar.FirstMatchAt | src/app/components/Navbar.tsx:30-41 | the first section containing the position is the one found |
| Navbar.ActiveAfterScroll | src/app/components/Navbar.tsx:23-41 | when some section contains the position the result is the first one that does; when none does the active section is kept |
| Navbar.EarlierSectionWins | src/app/components/Navbar.tsx:36-39 | where sections overlap the earlier one wins; a later one never becomes active |
| Navbar.NavbarState.constructor | src/app/components/Navbar.tsx:9-11 | the bar starts closed, unscrolled, on "home" |
| Navbar.NavbarState.HandleScroll | src/app/components/Navbar.tsx:22-41 | scrolled exactly past 20 pixels; the active section becomes the first one containing the point 100 pixels down, or stays when none does |
| Navbar.NavbarState.ClickItem | src/app/components/Navbar.tsx:118 | the clicked item becomes active and highlighted, and nothing else changes |
| Navbar.NavbarState.ClickMobileItem | src/app/components/Navbar.tsx:182-185 | the clicked item becomes active and the menu closes |
| Navbar.NavbarState.ClickMobileContact | src/app/components/Navbar.tsx:204 | the menu closes and nothing else changes |
| Navbar.NavbarState.ToggleMenu | src/app/components/Navbar.tsx:152 | the menu flips and nothing else changes |
| Navbar.OneItemHighlighted | src/app/components/Navbar.tsx:114 | exactly one item is highlighted at a time |
| AboutContent.FilteredSkills | src/app/components/AboutContent.tsx:24-26 | all skills with no category or the empty one, that category's skills otherwise |
| AboutContent.FilterButtons | src/app/components/AboutContent.tsx:150-159 | exactly the categories whose ids are whitelisted, in table order |
| AboutContent.SiteFilterButtons | src/app/components/AboutContent.tsx:150-159 | the row is Frontend, Backend, Database, DevOps and Programming |
| AboutContent.ButtonLabel | src/app/components/AboutContent.tsx:174 | the title up to its first space |
| AboutContent.SiteButtonLabels | src/app/components/AboutContent.tsx:174 | the labels are Frontend, Backend, Database, DevOps and Programming |
| AboutContent.FilterButtonIdsDistinct | src/app/components/AboutContent.tsx:150-162 | the buttons of the row have distinct ids, so distinct keys |
| AboutContent.FilterIdsDistinct | src/app/components/AboutContent.tsx:150-159 | filtering a list with distinct ids keeps them distinct |
| AboutContent.OfferedIsCategory | src/app/components/AboutContent.tsx:150-159 | every whitelisted id is a category of the table |
| AboutContent.OfferedHasButton | src/app/components/AboutContent.tsx:150-159 | every whitelisted id gets a button |
| AboutContent.ButtonOffered | src/app/components/AboutContent.tsx:150-159 | every button's id is whitelisted |
| AboutContent.OfferedShows | src/app/components/AboutContent.tsx:24-26 | a whitelisted id shows that category's skills, and at least one |
| AboutContent.ButtonShows | src/app/components/AboutContent.tsx:150-163 | a button of the row has a whitelisted id and shows that category's skills, and at least one |
| AboutContent.NoEmptyFilter | src/app/components/AboutContent.tsx:24-26 | no button leads to an empty list |
| AboutContent.OfferedFilter | src/app/components/AboutContent.tsx:24-26 | a whitelisted id shows exactly the table's skills of that category |
| AboutContent.OneButtonHighlighted | src/app/components/AboutContent.tsx:141-145 | with no category or a whitelisted one, exactly one button of the row is highlighted |
| AboutContent.OneHighlightedIn | src/app/components/AboutContent.tsx:163-172 | the same for any row with distinct ids that has a button for the active category |
| AboutContent.SkillFilter.constructor | src/app/components/AboutContent.tsx:19 | the panel opens on all skills |
| AboutContent.SkillFilter.SelectCategory | src/app/components/AboutContent.tsx:163 | a button makes its category active and the panel shows `getSkillsByCategory` of it, never empty |
| AboutContent.SkillFilter.ShowAll | src/app/components/AboutContent.tsx:140 | "All Skills" and "View all skills" return to all skills |
| AboutContent.LevelDotIsBand | src/app/components/AboutContent.tsx:213-221 | emerald from 90, green from 80, yellow from 70, orange below |
| AboutContent.LevelDot | src/app/components/AboutContent.tsx:213-221 | the dot is always one of the four band colours |
| AboutContent.TopExpertiseIsTopFive | src/app/components/AboutContent.tsx:302 | on five skills or more the slice to six never bites: five top skills in level order |
| AboutContent.SiteTopExpertise | src/app/components/AboutContent.tsx:21 | on the site's table the panel shows exactly `getTopSkills(5)`, five skills |
| ExperienceContent.InitialExpandedId | src/app/components/ExperienceContent.tsx:18-20 | the id of the first featured entry when it is not empty, otherwise nothing |
| ExperienceContent.FirstFeaturedStartsExpanded | src/app/components/ExperienceContent.tsx:18-20 | the first featured entry with a non-empty id starts expanded |
| ExperienceContent.InitiallyCollapsed | src/app/components/ExperienceContent.tsx:18-20 | with the site's table every entry starts collapsed |
| ExperienceContent.Toggle | src/app/components/ExperienceContent.tsx:22-24 | the result is nothing exactly when the entry was expanded, and otherwise that entry |
| ExperienceContent.ToggleTwice | src/app/components/ExperienceContent.tsx:22-24 | toggling twice from collapsed or from that entry comes back; from another entry it ends collapsed |
| ExperienceContent.AtMostOneExpanded | src/app/components/ExperienceContent.tsx:143 | with distinct ids at most one entry shows its details |
| ExperienceContent.ExperienceIdsDistinct | src/app/data/experiences.ts:3-103 | the experience ids are distinct |
| ExperienceContent.Timeline.constructor | src/app/components/ExperienceContent.tsx:18-20 | the timeline starts with the initial expanded id |
| ExperienceContent.Timeline.ToggleExpand | src/app/components/ExperienceContent.tsx:22-24 | the expanded entry collapses, any other entry expands in place of the current one |
| ExperienceContent.TypeBadgeStyle | src/app/components/ExperienceContent.tsx:231-244 | each known type gets its own style exactly, every other string the default |
| ExperienceContent.TypeBadge | src/app/components/ExperienceContent.tsx:114-122 | a badge exactly for a non-empty type, with that type's style and the type capitalised: first letter upper-cased, the rest unchanged |
| ExperienceContent.SiteTypeBadges | src/app/components/ExperienceContent.tsx:114-122 | the site's entries read "Work" three times and "Volunteer" once |
| Text.Capitalize | src/app/components/ExperienceContent.tsx:121-122 | same length, the first letter not lower-case and the same letter, the rest unchanged |
| EducationContent.EndDateShown | src/app/components/EducationContent.tsx:45 | an empty end date reads "Present", any other is shown as is, never empty |
| EducationContent.DegreeLine | src/app/components/EducationContent.tsx:61-62 | the degree, then " in " and the field only when the field is present and not empty |
| EducationContent.HighestDegree | src/app/components/EducationContent.tsx:124-145 | "Ph.D." exactly when a degree names a doctorate, "M.S." for a master's without one, "B.S." for a bachelor's without either, "Pursuing" otherwise |
| EducationContent.HighestDegreeMonotone | src/app/components/EducationContent.tsx:124-145 | adding an entry never lowers the highest degree |
| EducationContent.Degrees | src/app/components/EducationContent.tsx:125 | one degree per entry, in order |
| EducationContent.AchievementCount | src/app/components/EducationContent.tsx:160 | a missing list counts 0, a present one its length |
| EducationContent.TotalAchievements | src/app/components/EducationContent.tsx:159-162 | zero for no entries, and never below the count of any single entry |
| EducationContent.TotalAchievementsAppend | src/app/components/EducationContent.tsx:159-162 | the total over two runs of entries is the sum of their totals |
| EducationContent.AtAGlance | src/app/components/EducationContent.tsx:124-162 | the institutions are the entry count, the highest degree is the classifier's, the achievements the total |
| EducationContent.SiteDegrees | src/app/data/education.ts:3-57 | the site's degrees, in order |
| EducationContent.BachelorIsHighest | src/app/components/EducationContent.tsx:124-145 | degrees with no 'P', 't' or 'M', the first naming a bachelor's, give "B.S." |
| EducationContent.SiteAchievements | src/app/components/EducationContent.tsx:159-162 | the site's entries hold three achievements |
| EducationContent.SiteDegreesHighest | src/app/components/EducationContent.tsx:124-145 | the site's degree list gives "B.S." |
| EducationContent.SiteHighestDegree | src/app/components/EducationContent.tsx:124-145 | the site's entries give "B.S." |
| EducationContent.SiteAtAGlance | src/app/components/EducationContent.tsx:124-162 | the site shows "B.S.", three institutions and three achievements |
| ProjectModel.CategoryTitles | src/app/components/Projects.tsx:39 | one category title per project, in order |
| ProjectModel.ProjectCategories | src/app/components/Projects.tsx:37-40 | "All", then each project category title exactly once, in first-occurrence order |
| Seqs.Dedup | src/app/components/Projects.tsx:39 | `new Set` keeps each value once, in first-occurrence order |
| ProjectModel.AvailableCategories | src/app/components/Projects.tsx:43-46 | exactly the categories titled "All" or named by a project, in table order |
| ProjectModel.FilteredProjects | src/app/components/Projects.tsx:156-169 | a project is kept exactly when it passes the category and the search filter, in table order |
| ProjectModel.EmptySearchMatches | src/app/components/Projects.tsx:164 | every project matches the empty search term |
| ProjectModel.EmptySearchKeepsCategory | src/app/components/Projects.tsx:156-169 | with an empty term the category filter alone decides |
| ProjectModel.ResetShowsAll | src/app/components/Projects.tsx:536-539 | the empty term and "All" show every project |
| ProjectModel.BadgeLimit | src/app/components/Projects.tsx:475-487 | none before the page runs on the client; on the client 3 badges below 640 pixels and 4 from 640 on |
| ProjectModel.ShownBadges | src/app/components/Projects.tsx:473-485 | the first `min(length, limit)` skills of the list, nothing without a list |
| ProjectModel.MoreBadge | src/app/components/Projects.tsx:486-495 | "+N more" exactly on the client for a list longer than the limit, with N the skills not shown |
| Text.ToLower | src/app/components/Projects.tsx:164-168 | ASCII lower-casing: same length, no upper-case letter left, others unchanged |
| Text.ToLowerIdempotent | src/app/components/Projects.tsx:164-168 | lower-casing twice is lower-casing once |
| Text.ContainsIff | src/app/components/Projects.tsx:164-168 | `includes` holds exactly when the term occurs at some index |
| Text.ContainsEmpty | src/app/components/Projects.tsx:164 | every string includes the empty term |
| ProjectsSection.CircuitStyleFor | src/app/components/Projects.tsx:77-83 | 25-pixel grid below 480, 30 below 768, 50 from there; density 0.8 or 0.7; link distance 1.5 or 2 grid cells |
| ProjectsSection.CreateColumn | src/app/components/Projects.tsx:90-95 | the inner loop appends a node for exactly the kept points of the column, in order, without links |
| ProjectsSection.CreateNodes | src/app/components/Projects.tsx:89-96 | the nodes are exactly the kept grid points, column by column, without links |
| ProjectsSection.TargetsExact | src/app/components/Projects.tsx:102-123 | a node records exactly the other near nodes whose draw passes, each once, in increasing order |
| ProjectsSection.LinkNode | src/app/components/Projects.tsx:104-122 | the inner loop fills node `i`'s links with exactly its targets and changes no other node |
| ProjectsSection.DrawCircuitBoard | src/app/components/Projects.tsx:77-123 | the nodes are the kept grid points and each node's links are its targets |
| ProjectsSection.CircuitNodesOnGrid | src/app/components/Projects.tsx:89-96 | nodes lie on positive multiples of the grid size strictly inside the canvas, and every such kept point is a node |
| ProjectsSection.NodeAlpha | src/app/components/Projects.tsx:128 | 0.3 exactly for a linked node, 0.15 exactly for one without links |
| Hero.CheckScreenSize | src/app/components/Hero.tsx:32-38 | mobile exactly below 640, tablet exactly from 640 below 1024, small screen exactly below 768 |
| Hero.ScreenClasses | src/app/components/Hero.tsx:32-38 | never both mobile and tablet; mobile is small; from 1024 none holds |
| Hero.BaseParticleCount | src/app/components/Hero.tsx:57 | the largest count up to 80 whose 15-pixel slots fit the width |
| Hero.ParticlesCreated | src/app/components/Hero.tsx:57-73 | the loop runs the base count, or its half rounded up on mobile, never more than 80 |
| Hero.NewHeroParticleRanges | src/app/components/Hero.tsx:74-85 | a new particle is on the canvas, moves by less than 0.15, and has red and green in [155, 254], blue in [0, 254] and alpha in [0.1, 0.3) |
| Hero.WrapParticle | src/app/components/Hero.tsx:100-106 | a frame keeps size and colour |
| Motion.Wrap | src/app/components/Hero.tsx:100-106 | the speed is kept; on a non-negative extent, whatever the speed, the step lands in [0, extent]: moved when inside, 0 past the far edge, the extent below 0 |
| Hero.ParticleLayer.constructor | src/app/components/Hero.tsx:53-73 | the canvas takes the window size and the layer holds the created particles |
| Hero.ParticleLayer.CreateParticles | src/app/components/Hero.tsx:71-87 | the array is emptied, then holds one new particle per loop turn |
| Hero.ParticleLayer.AnimateParticles | src/app/components/Hero.tsx:93-107 | every particle takes one wrap step and stays on the canvas |
| Hero.ParticleLayer.HandleResize | src/app/components/Hero.tsx:112-116 | the canvas takes the new size and the particles are rebuilt from scratch |
| Hero.BaseStarCount | src/app/components/Hero.tsx:143 | the largest count up to 50 whose 10-pixel slots fit the width |
| Hero.StarsCreated | src/app/components/Hero.tsx:143-157 | at most 50 stars, at most 35 on tablets, the base count otherwise |
| Hero.Aged | src/app/components/Hero.tsx:184-192 | every tail part loses 0.02 opacity, in place |
| Hero.NextTailShape | src/app/components/Hero.tsx:183-205 | the aged visible parts in order, then a new part at the star with 0.8 of its opacity when the draw is above one half; without one the tail never grows |
| Hero.NextTail | src/app/components/Hero.tsx:183-205 | the tail grows by at most one part a frame, only on a draw above one half, and a new part sits at the star with 0.8 of its opacity |
| Hero.NewStarOk | src/app/components/Hero.tsx:155-166 | a new star is on the canvas and falls at 0.5 to 2.5 a frame |
| Hero.StepStarOk | src/app/components/Hero.tsx:207-219 | after a frame the star is on the canvas with opacity in (0, 1]; one not replaced fell by its speed and faded by 0.005 |
| Hero.StepStar | src/app/components/Hero.tsx:207-219 | a star past the bottom or faded out is replaced; any other star keeps its x, size and speed, falls by its speed, fades by 0.005, takes its next tail, and stays on the canvas and visible |
| Hero.RespawnedOk | src/app/components/Hero.tsx:210-218 | a replacement star is at the top, fully opaque |
| Hero.StarLayer.constructor | src/app/components/Hero.tsx:139-157 | the canvas takes the window size and the layer holds the created stars |
| Hero.StarLayer.CreateStars | src/app/components/Hero.tsx:155-167 | the array is emptied, then holds one new star per loop turn |
| Hero.StarLayer.AnimateStars | src/app/components/Hero.tsx:173-220 | every star takes its frame, and every star stays visible |
| Hero.StarLayer.HandleResize | src/app/components/Hero.tsx:225-229 | the canvas takes the new size and the stars are rebuilt from scratch |
| Hero.StartStars | src/app/components/Hero.tsx:131-144 | no star layer exactly on mobile, otherwise one with the star count of the window |
| Motion.LoopCount | src/app/components/Hero.tsx:73 | a `for` loop to a real count runs the count rounded up |
| Motion.Bounce | src/app/components/Skills.tsx:127-132 | the bounce moves by the speed and negates it exactly when the new place is outside [0, extent], never clamping and never changing the speed's size |
| Motion.BounceKeepsNear | src/app/components/Skills.tsx:127-132 | a point near the range stays near it after a bounce |
| Motion.NearIsWithinOneStep | src/app/components/Skills.tsx:127-132 | near the range means within one speed step of it |
| Motion.BounceForever | src/app/components/Skills.tsx:127-132 | a point starting near the range stays within one step of it for ever, at the same speed magnitude |
| Motion.BounceStuckOutside | src/app/components/Contact.tsx:76-82 | a point more than a step beyond the range oscillates outside it for ever |
| Motion.LineAlpha | src/app/components/Skills.tsx:95-100 | for distances below the threshold the alpha lies in (0, base] |
| Motion.LineAlphaFalls | src/app/components/Skills.tsx:95-100 | the alpha falls with distance, from the base at 0 to nothing at the threshold |
| Motion.ConnectionLines | src/app/components/Skills.tsx:86-106 | the nested loops draw a line exactly for each pair i < j closer than the threshold, with its alpha, in loop order |
| SkillsSection.NewParticleRanges | src/app/components/Skills.tsx:63-75 | a new particle lies in [0, W) × [0, H), moves by less than 0.2, and has size in [0.5, 2.5) and opacity in [0.3, 0.8) |
| SkillsSection.StepParticle | src/app/components/Skills.tsx:126-132 | a frame keeps size and opacity |
| SkillsSection.ParticleField.constructor | src/app/components/Skills.tsx:37-45 | the array starts empty on an empty canvas |
| SkillsSection.ParticleField.InitParticles | src/app/components/Skills.tsx:45-75 | the array is emptied, then holds exactly 70 new particles |
| SkillsSection.ParticleField.ResizeCanvas | src/app/components/Skills.tsx:54-61 | the canvas takes the container's size and the 70 particles are rebuilt |
| SkillsSection.ParticleField.StepParticles | src/app/components/Skills.tsx:126-132 | every particle takes one bounce step and stays within one step of the canvas |
| SkillsSection.ParticleField.AnimateParticles | src/app/components/Skills.tsx:78-137 | the lines of the frame between close particles, then every particle's step |
| SkillsSection.SkillsLineAlpha | src/app/components/Skills.tsx:95-100 | a line is visible and fainter than 0.12 |
| SkillsSection.SkillLevelText | src/app/components/Skills.tsx:218-254 | Expert exactly from 90, Advanced from 75, Proficient from 60, Intermediate below |
| SkillsSection.SkillLevelTextMonotone | src/app/components/Skills.tsx:218-254 | a higher level never gets a lower badge, and distinct badges have distinct icons |
| SkillsSection.CategoryIcon | src/app/components/Skills.tsx:150-160 | the mapped icon, or Code for an unknown id |
| SkillsSection.CategoryDescription | src/app/components/Skills.tsx:163-178 | the mapped text, or "" for an unknown id |
| SkillsSection.CategoryFallbacks | src/app/components/Skills.tsx:150-178 | both maps know the same ids, and the fallbacks are taken exactly for the others |
| SkillsSection.SkillCategories | src/app/components/Skills.tsx:181-195 | one formatted entry per property of the grouped object, in order |
| SkillsSection.GroupedEntry | src/app/components/Skills.tsx:32-33 | each property holds the category with its own id and that category's skills, never empty |
| SkillsSection.SkillCategoriesOfGroups | src/app/components/Skills.tsx:181-195 | one entry per non-empty group, carrying its id and its skills in order |
| SkillsSection.SiteSkillCategories | src/app/components/Skills.tsx:150-195 | with the site's groups there are six entries, each with its own icon and a description |
| AboutSection.NewParticleRanges | src/app/components/About.tsx:100-123 | a new particle is on the canvas, with opacity in [0.2, 0.7), size in [0.5, 2.5), speed below 0.15, and blue or purple |
| AboutSection.NewParticleOk | src/app/components/About.tsx:100-123 | a new particle is inside the canvas |
| AboutSection.AlphaByteRange | src/app/components/About.tsx:170 | an opacity in [0.2, 0.7) gives an alpha byte in [51, 178] |
| Text.HexByteRoundTrip | src/app/components/About.tsx:170-172 | every byte becomes exactly two hex digits that read back as the byte |
| Text.RadixRoundTrip | src/app/components/About.tsx:171 | `toString(radix)` reads back as the number |
| Text.PadStart | src/app/components/About.tsx:172 | the string is padded on the left to the length, and kept whole |
| AboutSection.FillStyleAlpha | src/app/components/About.tsx:170-172 | the fill style is the colour followed by two hex digits that read back as the alpha byte |
| AboutSection.StepParticle | src/app/components/About.tsx:177-182 | a frame keeps size, opacity and colour |
| AboutSection.GridSize | src/app/components/About.tsx:132 | 25 exactly below 768, 40 exactly from there |
| AboutSection.GridDots | src/app/components/About.tsx:136-142 | the nested loops produce the column-major lattice of the grid |
| AboutSection.GridIsMultiples | src/app/components/About.tsx:136-142 | a dot is drawn exactly at every pair of multiples of the grid size inside the canvas, column by column |
| AboutSection.ParticleField.constructor | src/app/components/About.tsx:73-82 | the array starts empty on an empty canvas |
| AboutSection.ParticleField.InitParticles | src/app/components/About.tsx:82-123 | the array is emptied, then holds exactly 50 new particles |
| AboutSection.ParticleField.ResizeCanvas | src/app/components/About.tsx:91-97 | the canvas takes the container's size and the 50 particles are rebuilt |
| AboutSection.ParticleField.StepParticles | src/app/components/About.tsx:168-183 | every particle takes one bounce step, and its fill style was its colour and alpha suffix |
| AboutSection.ParticleField.AnimateParticles | src/app/components/About.tsx:126-186 | the grid of the frame, the lines between close particles, then every particle's step |
| AboutSection.ActiveTabInfo | src/app/components/About.tsx:257 | the tab with that id, and none exactly when no tab has it |
| AboutSection.TabLookup | src/app/components/About.tsx:199-235 | each tab's id finds that tab and is a key of the tab contents |
| AboutSection.MenuLabel | src/app/components/About.tsx:432 | the active tab's label, or "Menu" when no tab has the id |
| AboutSection.TabState.constructor | src/app/components/About.tsx:58-59 | the section opens on "about" with the menu closed |
| AboutSection.TabState.ToggleMobileMenu | src/app/components/About.tsx:419 | the menu flips and the tab stays |
| AboutSection.TabState.SelectFromMenu | src/app/components/About.tsx:463-464 | the tab becomes active and the menu closes |
| AboutSection.TabState.Select | src/app/components/About.tsx:489 | the tab becomes active and the menu stays as it was |
| AboutSection.ActiveTabShown | src/app/components/About.tsx:257 | whatever tab is active, the menu shows its label and its content exists |
| ContactSection.PointCount | src/app/components/Contact.tsx:49 | 40 exactly below 768, 70 exactly from there |
| ContactSection.NewPointRanges | src/app/components/Contact.tsx:59-68 | a new point is on the canvas, moves by less than 0.2, with size in [1, 3) and hue in [200, 240) |
| ContactSection.StepPoint | src/app/components/Contact.tsx:76-82 | a frame moves the point by its speed and keeps size and hue |
| ContactSection.StepPointForever | src/app/components/Contact.tsx:76-82 | while the canvas keeps its size a point stays within one step of it for ever |
| ContactSection.StrandedAfterShrink | src/app/components/Contact.tsx:33-82 | after the canvas shrinks under a point it can oscillate outside for ever |
| ContactSection.NetworkCanvas.constructor | src/app/components/Contact.tsx:40-68 | the canvas takes the container's size and holds the created points, each within range |
| ContactSection.NetworkCanvas.ResizeCanvas | src/app/components/Contact.tsx:33-38 | the canvas takes the new size and the points are left as they are |
| ContactSection.NetworkCanvas.Animate | src/app/components/Contact.tsx:76-125 | every point takes its step; a line joins `i` to each later `j` closer than 150, measured from the moved `i` to the unmoved `j`, with opacity 0.15·(1 − d/150), in loop order |
| ContactSection.ContactCategories | src/app/components/Contact.tsx:175-179 | primary, social and messaging keep exactly the direct, social and professional contacts, in table order |
| ContactSection.PrimaryContacts | src/app/components/Contact.tsx:176 | five primary contacts: email, phone, WhatsApp, Telegram and LINE |
| ContactSection.SocialContacts | src/app/components/Contact.tsx:177 | one social contact: Instagram |
| ContactSection.MessagingContacts | src/app/components/Contact.tsx:178 | two messaging contacts: LinkedIn and GitHub |
| ContactSection.ContactGroupsPartition | src/app/components/Contact.tsx:175-179 | every contact is in exactly one of the three groups |

## Left out

- Markup and styling. All JSX, the Tailwind class strings composed inside templates, and the framer-motion variants are presentational.
- Canvas painting. The model omits `arc`, `fill`, `stroke`, `clearRect` and the gradients. It keeps the state the frame loops change and the numbers they compute: alphas, fill styles and the lines drawn.
- Host scheduling. The model omits `requestAnimationFrame`, `cancelAnimationFrame`, the resize and scroll listeners, and effect mount and teardown. A frame is one method call.
  - The skills, about and contact effects never cancel their frame loop. This lifecycle detail is not represented.
- Random draws. `Math.random()` values are supplied as described under the modelling conventions above, and they lie in `[0, 1)`. The model does not capture how the host generates them. For the star frames and the circuit board, it does not capture the position of each draw in the host's single stream of random values.
- Distances. `Math.sqrt` distances are a supplied function of two particles or indices. The model states no geometric fact about them.
- IEEE-754 arithmetic. Numbers are exact reals, so no property depends on rounding. In the hero's tail, the `opacity -= 0.02` steps are exact.
- AboutHelper.ExperienceYears: the comparisons are on any real number of years, but JavaScript's conversion of a number to text is the parameter `numberText`. So for a fractional count such as 2.5 the model does not fix the digits shown. AboutHelper.WholeExperienceYears states the text only for a whole number above one.
- Unicode case mapping. `toLowerCase` and `toUpperCase` are modelled on ASCII letters only.
- Dates. The model omits `new Date(...)` and `getFullYear`, and with them the "Years in Education" figure of EducationContent.tsx and the footer year.
- The theme table. `CATEGORY_THEMES[id]` is a finite map, so object-prototype keys such as "toString" are not modelled.
- The DOM. Window and container sizes and the section boxes are inputs; `document.getElementById` is a map lookup.
- Projects.GetProjectById, Projects.GetProjectsByCategory, Projects.GetProjectsBySkill and Projects.GetAllProjects are the wrappers over the site's table and carry no contract of their own. Their properties are stated through ProjectModel on any project list and through the Projects lemmas on the table, with the display texts (title, description, image, links) as a parameter.
- Skills.GetTopSkills and Interests.GetPrioritizedInterests are likewise the table wrappers. SkillModel.TopByLevel and Interests.TopByPriority state their contracts.
- ProjectModel.ProjectCategories: the concrete list of the site's project categories is not computed. The lemma states the list's shape for any project list.
- Motion.ConnectionLines returns the lines of a frame as a list. The source interleaves drawing them with the particle updates, so the model does not capture that order of painting.
- SkillsSection.SkillCategories: the sample project names attached to every skill are constant display text and are not modelled.
- ProjectsSection.DrawCircuitBoard works on `seq` values for the node list, rather than on the JavaScript array the source updates in place.
- Navbar.NavbarState.HandleScroll: `scrollY.onChange` subscription is host scheduling. The handler is modelled as one call with the scroll offset as input.
- Footer.tsx, InterestContent.tsx, `page.tsx` and `layout.tsx` are not part of this model. They hold only composition and static markup.
- The type declarations in `src/app/types` are not modelled separately; they appear as the datatypes of the data modules.
