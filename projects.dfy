/** The project table and its queries (src/app/data/projects.ts). */
module Projects {
  import opened Wrappers
  import opened Seqs
  import opened Categories
  import opened SkillModel
  import opened Skills
  import opened ProjectModel

  /** The display texts of a project: title, description, image path and
      the two optional links. Only the search and the cards read them. */
  datatype Display = Display(title: string, description: string, image: string, github: Option<string>, live: Option<string>)

  /** The display texts of the project table, in table order. */
  const displays: seq<Display> := [    Display("HomeFurniPlace",
      "A modern e-commerce platform specializing in furniture and home decor with responsive design, user accounts, product filtering, wishlist functionality, and seamless checkout experience.",
      "/images/projects/home-furni-place.jpg", Some("https://github.com/Bimo/HomeFurniPlace"), Some("https://homefurniplace.demo.com")),
    Display("EduHigh Learning Platform",
      "An educational platform for high school students featuring interactive lessons, progress tracking, quizzes, and a teacher dashboard for student performance analytics.",
      "/images/projects/edu-high.jpg", Some("https://github.com/Bimo/EduHigh"), Some("https://eduhigh.edu")),
    Display("ONE Analytics Dashboard",
      "A comprehensive admin dashboard with real-time analytics, data visualization, user management, and reporting tools for business metrics and KPIs.",
      "/images/projects/one-dashboard.jpg", Some("https://github.com/Bimo/ONE-Dashboard"), Some("https://one-analytics.demo.com")),
    Display("WeatherNow App",
      "A weather application providing real-time forecasts, location-based weather data, interactive maps, and severe weather alerts with a clean, intuitive interface.",
      "/images/projects/weather-now.jpg", Some("https://github.com/Bimo/WeatherNow"), Some("https://weather-now.app")),
    Display("Task Tracker API",
      "A RESTful API service for task management applications with authentication, task CRUD operations, user permissions, and data validation.",
      "/images/projects/task-tracker-api.jpg", Some("https://github.com/Bimo/TaskTrackerAPI"), None),
    Display("Inventory Management System",
      "A comprehensive inventory management solution with barcode scanning, stock alerts, supplier management, and reporting capabilities for small businesses.",
      "/images/projects/inventory-system.jpg", Some("https://github.com/Bimo/InventorySystem"), None),
    Display("FitTrack Mobile App",
      "A fitness tracking mobile application with workout plans, progress tracking, nutritional guidance, and social sharing features for fitness enthusiasts.",
      "/images/projects/fit-track.jpg", Some("https://github.com/Bimo/FitTrack"), Some("https://fittrack.app")),
    Display("Modern Blog CMS",
      "A content management system for blogs with markdown support, image optimization, SEO tools, and a customizable theming system.",
      "/images/projects/blog-cms.jpg", Some("https://github.com/Bimo/BlogCMS"), None),
    Display("Virtual Classroom",
      "An online learning platform with video conferencing, screen sharing, interactive whiteboard, and document collaboration for remote education.",
      "/images/projects/virtual-classroom.jpg", Some("https://github.com/Bimo/VirtualClassroom"), Some("https://virtual-classroom.edu")),
    Display("Recipe Finder",
      "A web application for discovering recipes based on available ingredients, dietary restrictions, and nutritional preferences with a user-friendly interface.",
      "/images/projects/recipe-finder.jpg", Some("https://github.com/Bimo/RecipeFinder"), Some("https://recipe-finder.app")),
    Display("Portfolio Generator",
      "A tool that helps developers create professional portfolios by importing projects from GitHub and customizing the appearance with themes and templates.",
      "/images/projects/portfolio-generator.jpg", Some("https://github.com/Bimo/PortfolioGenerator"), Some("https://portfolio-generator.dev"))  ]

  /** A project of the table from its id, display texts, category and
      skills. */
  function Row(id: string, t: Display, category: Category, skills: seq<Skill>): Project {
    Project(id, t.title, t.description, t.image, category, t.github, t.live, Some(skills))
  }

  /** The project table, in declaration order, with the display texts as a
      parameter: the facts about ids, categories and skills hold whatever
      the texts. */
  function ProjectTable(t: seq<Display>): (r: seq<Project>)
    requires |t| == 11
    ensures |r| == 11
  {
    [      Row("home-furni-place", t[0], Fullstack, [Laravel, MySql, Php, JavaScript, Tailwind]),
      Row("edu-high", t[1], Fullstack, [Laravel, MySql, JavaScript, Tailwind, Html5]),
      Row("one-dashboard", t[2], Frontend, [React, TypeScript, Tailwind]),
      Row("weather-now", t[3], Frontend, [React, JavaScript, Css3]),
      Row("task-tracker-api", t[4], Backend, [NodeJs, Express]),
      Row("inventory-system", t[5], Fullstack, [Laravel, MySql, Bootstrap]),
      Row("fit-track-mobile", t[6], Mobile, [JavaScript, Firebase]),
      Row("blog-cms", t[7], Fullstack, [NodeJs, React, Tailwind]),
      Row("virtual-classroom", t[8], Fullstack, [React, NodeJs]),
      Row("recipe-finder", t[9], Frontend, [React, Css3]),
      Row("portfolio-generator", t[10], Frontend, [React, Tailwind])
    ]
  }

  /** The project table of the site. */
  const projects: seq<Project> := ProjectTable(displays)

  /** `getProjectById`, `getProjectsByCategory`, `getProjectsBySkill` and
      `getAllProjects` on the site's table; `ProjectById`,
      `ProjectsByCategory` and `ProjectsBySkill` state what they return. */
  function GetProjectById(id: string): Option<Project> {
    ProjectById(projects, id)
  }

  function GetProjectsByCategory(categoryId: string): seq<Project> {
    ProjectsByCategory(projects, categoryId)
  }

  function GetProjectsBySkill(skillId: string): seq<Project> {
    ProjectsBySkill(projects, skillId)
  }

  function GetAllProjects(): seq<Project> {
    projects
  }

  /** The ids of the table, in order. */
  const ProjectIds: seq<string> := ["home-furni-place", "edu-high", "one-dashboard", "weather-now", "task-tracker-api", "inventory-system", "fit-track-mobile", "blog-cms", "virtual-classroom", "recipe-finder", "portfolio-generator"]

  /** The table's ids, whatever the texts. */
  lemma TableIds(t: seq<Display>)
    requires |t| == 11
    ensures forall i :: 0 <= i < 11 ==> ProjectTable(t)[i].id == ProjectIds[i]
  {
  }

  lemma IdsAreDistinct()
    ensures forall i, j :: 0 <= i < j < |ProjectIds| ==> ProjectIds[i] != ProjectIds[j]
  {
  }

  /** No two projects share an id, whatever the texts. */
  lemma TableIdsDistinct(t: seq<Display>)
    requires |t| == 11
    ensures ProjectIdsDistinct(ProjectTable(t))
  {
    TableIds(t);
    IdsAreDistinct();
  }

  /** Looking up the id of any project of the table, whatever the texts,
      finds that project. */
  lemma ProjectLookupRoundTrip(t: seq<Display>, k: int)
    requires |t| == 11 && 0 <= k < 11
    ensures ProjectById(ProjectTable(t), ProjectTable(t)[k].id) == Some(ProjectTable(t)[k])
  {
    TableIdsDistinct(t);
    ProjectByIdRoundTrip(ProjectTable(t), k);
  }

  /** Every project's category is one of the first four table entries. */
  lemma TableCategories(t: seq<Display>)
    requires |t| == 11
    ensures forall i :: 0 <= i < 11 ==> ProjectTable(t)[i].category in {Frontend, Backend, Fullstack, Mobile}
  {
  }

  /** Every `getCategoryById(...)!` of the table, whatever the texts, finds
      the category the project holds. */
  lemma ProjectCategoriesResolve(t: seq<Display>)
    requires |t| == 11
    ensures forall i :: 0 <= i < 11 ==> GetCategoryById(ProjectTable(t)[i].category.id) == Some(ProjectTable(t)[i].category)
  {
    TableCategories(t);
    LookupRoundTrip(0);
    LookupRoundTrip(1);
    LookupRoundTrip(2);
    LookupRoundTrip(3);
  }

  /** `getSkillById(id)` on the id of a skill of the table. */
  predicate Resolves(s: Skill) {
    GetSkillById(s.id) == Some(s)
  }

  /** The skills the project table names. */
  const usedSkills: set<Skill> :=
    {Laravel, MySql, Php, JavaScript, Tailwind, Html5, React, TypeScript, Css3, NodeJs, Express, Bootstrap, Firebase}

  /** Every project has a skills list, drawn from `usedSkills`, whatever
      the texts. */
  lemma TableSkills(t: seq<Display>)
    requires |t| == 11
    ensures forall i :: 0 <= i < 11 ==> ProjectTable(t)[i].skills.Some?
    ensures forall i, k :: 0 <= i < 11 && 0 <= k < |ProjectTable(t)[i].skills.value| ==>
      ProjectTable(t)[i].skills.value[k] in usedSkills
  {
  }

  /** Every skill the project table names is an entry of the skills
      table. */
  lemma UsedSkillsInTable()
    ensures forall s :: s in usedSkills ==> s in skills
  {
  }

  /** Every `getSkillById(...)!` of the table, whatever the texts, finds
      the skill the project lists, so no `!` hides an `undefined`. */
  lemma TableSkillsResolve(t: seq<Display>)
    requires |t| == 11
    ensures forall i :: 0 <= i < 11 ==> ProjectTable(t)[i].skills.Some?
    ensures forall i, k :: 0 <= i < 11 && 0 <= k < |ProjectTable(t)[i].skills.value| ==>
      Resolves(ProjectTable(t)[i].skills.value[k])
  {
    TableSkills(t);
    UsedSkillsInTable();
    SkillsResolve();
  }
}
